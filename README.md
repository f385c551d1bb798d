# mcp-sidecar, modelled in Dafny

mcp-sidecar is a browser extension with a small local server. Text that contains
commands of the form `mcp:<server>:<tool>(<args>)` goes in. The extension parses the
commands out of the text and shows them as an execution plan. It runs them one by one,
or as a batch that stops at the first failure, through the server's `/api/invoke`
endpoint. The server answers its own internal tools itself: the tool catalog, a
directory tree, file reading and listing, and git. It forwards every other tool to a
connected MCP server. The results come back as text for the clipboard.

This project models that pipeline and the small decision rules around it, and proves
what each part promises:

- `command_parser.dfy`: the extension's command scanner. It covers the global header
  regex, the inner state machine that balances parentheses and skips strings, and the
  outer loop with its hand-reset `lastIndex`.
- `server_command.dfy`: the server's single-command parser, which matches one anchored
  regex.
- `formatter.dfy`: the result formatter and the tool-catalog renderer.
- `language_config.dfy`: the built-in prompt templates and the extension-to-language
  table.
- `mcp_engine.dfy`: the engine hook (a class), covering a single run, the fail-fast
  batch and the server-list merge.
- `router.dfy`: the `/api/invoke` handler body. It takes the target from a command
  string, sends internal tools to the internal handler and calls everything else on
  its client. It rewrites relative `fs` paths and normalises what the provider returns.
- `internal_tools.dfy`: the internal tool handler and its catalog.
- `fs_tree.dfy`: the indented tree and the structured directory listing.
- `execution_plan.dfy`: the status icon of each plan row and the button rules.
- `file_search.dfy`: the path search box (a class). It covers the query split,
  suggestions, arrow-key selection, Tab completion and the search lock.
- `prompt_manager.dfy`: saving and deleting prompt templates (a class for the dialog).
- `prompt_store.dfy`: how saved templates are merged with the system templates at
  start-up.
- `server_shortcuts.dfy`: the suggested catalog commands.

Supporting modules:

- `js_text.dfy`: the JavaScript string operations used: trim, split, join, indexOf,
  lastIndexOf, toLowerCase and repeat.
- `js_value.dfy`: JSON-like values and property reads.
- `collections.dfy`: deduplication, insertion sort and the directories-first order.
- `server_env.dfy`: the server's environment as oracles.
- `protocol.dfy`: the records exchanged between the extension and the server.
- `wrappers.dfy`: `Option` and `Result`.

I/O becomes parameters:

- the server's answers;
- the file system, as an abstract tree;
- the shell;
- the MCP clients;
- `new Function`;
- `JSON.parse` and `JSON.stringify`;
- `localeCompare`;
- Node's path functions.

Where the code uses an in-place loop, the model is a method with loop invariants, proved
against a function that states the result. The properties are then proved about that
function.

## Model

| member | source | states |
|---|---|---|
| CommandParser.IdRunEndIsMaximal | apps/extension/src/lib/command-parser.ts:16 | the id groups `[a-zA-Z0-9_-]+` are greedy: the run from i holds only id characters and stops at another character or the end |
| CommandParser.SpaceRunEndIsMaximal | apps/extension/src/lib/command-parser.ts:16 | the `\s*` before `(` is greedy: the run holds only blanks and stops at a non-blank or the end |
| CommandParser.HeaderAtSound | apps/extension/src/lib/command-parser.ts:16 | every match of the header expression at p reads `mcp:`, a non-empty id server (`[a-zA-Z0-9_-]+`), `:`, a non-empty id tool, blanks and `(`, ending inside the text |
| CommandParser.HeaderAtComplete | apps/extension/src/lib/command-parser.ts:16 | conversely, every header of that shape starting at p is the match found at p |
| CommandParser.NextHeaderIsLeftmost | apps/extension/src/lib/command-parser.ts:16-23 | `regex.exec` from lastIndex finds the leftmost match at or after it, and finds none exactly when no position from there matches |
| CommandParser.NextMatchIsLeftmost | apps/extension/src/lib/command-parser.ts:20-23 | the same leftmost-match property for any matcher that reports headers starting where it was asked |
| CommandParser.Step | apps/extension/src/lib/command-parser.ts:34-61 | one pass of the inner loop: the balance moves only on `(` and `)` outside a string; a quote opens a string; inside a string an escape skips the next character and only the opening quote character closes it |
| CommandParser.ArgsEndIsFirstZero | apps/extension/src/lib/command-parser.ts:26-64 | the argument span closes at the first character that brings the balance, starting at 1, to 0; when there is none the balance stays positive to the end of the text |
| CommandParser.FindArgsEnd | apps/extension/src/lib/command-parser.ts:26-64 | the inner loop returns -1 exactly when the span never closes, and otherwise the index of the closing `)` |
| CommandParser.ScanSpansAreFound | apps/extension/src/lib/command-parser.ts:20-70 | every span the outer loop emits is a header match whose argument span closes at the recorded `)` |
| CommandParser.ScanEmits | apps/extension/src/lib/command-parser.ts:64-70 | after a closed span the search resumes right after its `)` |
| CommandParser.ScanSkips | apps/extension/src/lib/command-parser.ts:66-68 | after a header whose `(` never closes the search resumes right after that `(`, and nothing is emitted for it |
| CommandParser.PendingBuildsScan | apps/extension/src/lib/command-parser.ts:20-105 | the commands are built one for one, in order, from the spans the scan emits |
| CommandParser.MakeCommand | apps/extension/src/lib/command-parser.ts:70-102 | the command of one span: names from the header, the original text from `mcp:` to `)`, and arguments evaluated from the trimmed text between the parentheses |
| CommandParser.NextCommand | apps/extension/src/lib/command-parser.ts:20-103 | one pass of the outer loop advances lastIndex strictly and pushes at most one command, the head of the remaining command list |
| CommandParser.ParseCommandsFromText | apps/extension/src/lib/command-parser.ts:14-105 | the loop returns exactly the command list of the text |
| CommandParser.ScanOrdered | apps/extension/src/lib/command-parser.ts:64-70 | the emitted spans come left to right and never overlap: each closes before the next begins |
| CommandParser.CommandFromSpan | apps/extension/src/lib/command-parser.ts:14-105 | every returned command is built from a span of the text that the expression matched and whose parentheses balance |
| CommandParser.BuildText | apps/extension/src/lib/command-parser.ts:72-102 | a command's original text starts with `mcp:<server>:<tool>`, ends with `)`, and its names are the header's non-empty id names |
| CommandParser.SpanText | apps/extension/src/lib/command-parser.ts:73-74 | the text from a matched header to its closing `)` starts with `mcp:<server>:<tool>` and ends with `)` |
| CommandParser.BuildValidity | apps/extension/src/lib/command-parser.ts:76-102 | a command is valid exactly when its trimmed arguments are empty or evaluate; empty arguments give `{}`, a successful evaluation its value, a failed one `{}` and the error |
| CommandParser.NoParenNoCommands | apps/extension/src/lib/command-parser.ts:16 | a text without `(` yields no command |
| CommandParser.NoHeaderNoCommands | apps/extension/src/lib/command-parser.ts:16-23 | a text in which no position starts a header yields no commands |
| ServerCommand.SplitCommandSound | apps/server/src/utils/command.ts:2-5 | every match of `^mcp:([^:]+):([^(]+?)(?:\((.*)\))?$` yields groups of the allowed shape that read back as the matched text |
| ServerCommand.SplitCommandComplete | apps/server/src/utils/command.ts:2-5 | every well-formed group triple is matched back from its own text, so the split is unique |
| ServerCommand.ParseArgs | apps/server/src/utils/command.ts:6-11 | absent or blank arguments give `{}`; otherwise JSON.parse's value, and the error "Invalid JSON args" exactly when JSON.parse throws |
| ServerCommand.ParseMcpCommand | apps/server/src/utils/command.ts:1-13 | fails with "Invalid command format" exactly when the trimmed text does not match, fails when the arguments do not parse, and otherwise returns the trimmed names and the parsed arguments |
| ServerCommand.ParseRendered | apps/server/src/utils/command.ts:1-13 | `mcp:<server>:<tool>` without parentheses parses back to those names and `{}` |
| ServerCommand.ParseRenderedWithArgs | apps/server/src/utils/command.ts:1-13 | `mcp:<server>:<tool>(<json>)` parses back to those names and JSON.parse's value for the text between the parentheses |
| Formatter.ServerLines | apps/extension/src/lib/formatter.ts:64 | one `- mcp:<name>` line per server name, in order |
| Formatter.ServerListLines | apps/extension/src/lib/formatter.ts:63-65 | the server list text is the header followed by lines that split back into one `- mcp:<name>` line per server |
| Formatter.ListingLines | apps/extension/src/lib/formatter.ts:86-91 | the listing's lines are the directories with a trailing `/`, then the files |
| Formatter.ListingPartition | apps/extension/src/lib/formatter.ts:86-87 | the directory and file groups together hold exactly the listing's entries, one line each |
| Formatter.ListingKeepsOrder | apps/extension/src/lib/formatter.ts:86-87 | each group keeps the listing's order: the groups of a concatenation are concatenated |
| Formatter.NewlinesToSpaces | apps/extension/src/lib/formatter.ts:27 | every line break of the description becomes a space and nothing else changes |
| Formatter.DescriptionOnOneLine | apps/extension/src/lib/formatter.ts:27 | a description line carries no line break |
| Formatter.AddTool | apps/extension/src/lib/formatter.ts:6-9 | one pass of the forEach throws the TypeError of `push` exactly when the server names a property every object inherits; otherwise the dictionary still maps each server, created in order of first appearance, to its tools in input order |
| Formatter.GroupByServer | apps/extension/src/lib/formatter.ts:5-9 | the grouping loop fails exactly when some server is named after an inherited property; otherwise its keys are the servers, each created once in order of first appearance, each mapped to its tools in input order |
| Formatter.GroupedNotInherited | apps/extension/src/lib/formatter.ts:6-9 | a completed grouping has no server named after an inherited property |
| Formatter.EmitGroup | apps/extension/src/lib/formatter.ts:23-48 | one server's block: its heading, each tool's lines and a blank line |
| Formatter.AppendToolLines | apps/extension/src/lib/formatter.ts:25-46 | one tool's pushes append exactly its lines: its name, its description on one line, its arguments when the schema has properties, and a spacer |
| Formatter.AppendArgLines | apps/extension/src/lib/formatter.ts:36-43 | the loop over the argument keys appends one argument line per key, in order |
| Formatter.EmitGroups | apps/extension/src/lib/formatter.ts:22-49 | the loop over the dictionary's entries emits each server's block in the order the keys are visited |
| Formatter.FormatToolList | apps/extension/src/lib/formatter.ts:4-51 | formatToolList returns the catalog text: the title (and tip), then one block per server in `Object.entries` order, joined by line breaks; or the TypeError of a server named after an inherited property |
| Formatter.ServerBlocksOrder | apps/extension/src/lib/formatter.ts:22 | the blocks follow `Object.entries` order: servers whose names are array indices come first, in ascending numeric order, then the others in order of first appearance; without index names this is the order of first appearance |
| Formatter.IndexServerFirst | apps/extension/src/lib/formatter.ts:5-23 | a server named `7` listed after a server named `git` still gets the first block |
| Formatter.CatalogBlocksStart | apps/extension/src/lib/formatter.ts:14-23 | the first line after the title (and tip) heads the block of the first server in key order |
| Formatter.KeysOwned | apps/extension/src/lib/formatter.ts:22 | every key `Object.entries` visits is a dictionary key holding that server's tools |
| Formatter.SchemaEntriesOrder | apps/extension/src/lib/formatter.ts:30-37 | the arguments are listed once per key, in own-key order, each with its last binding; a schema with distinct keys that are not array indices keeps its order |
| Formatter.ToolListTitle | apps/extension/src/lib/formatter.ts:12-20 | the title names the detailed form exactly when the first tool has a schema, and the tip follows only the summary title |
| Formatter.GroupsCoverTools | apps/extension/src/lib/formatter.ts:5-22 | every tool lies in its own server's group, and each server is listed once |
| Formatter.GroupKeepsOrder | apps/extension/src/lib/formatter.ts:6-9 | grouping keeps input order: a server's group of a concatenation is the concatenation of its groups |
| Formatter.RequiredMarked | apps/extension/src/lib/formatter.ts:38-42 | an argument is marked `*` exactly when the schema lists it as required |
| Formatter.FormatText | apps/extension/src/lib/formatter.ts:103-126 | the text cases fail only for read_file with a truthy non-string path |
| Formatter.FormatResult | apps/extension/src/lib/formatter.ts:54-127 | formatCommandResult fails for a text-like payload exactly when it is sent to read_file with a truthy non-string path, and for a catalog exactly when a server is named after an inherited property; server lists, listings and non-null objects never fail |
| Formatter.OtherToolsPassThrough | apps/extension/src/lib/formatter.ts:103-126 | a string from a tool without a case of its own is returned unchanged |
| Formatter.ObjectsAsJson | apps/extension/src/lib/formatter.ts:63-99 | a non-null object, an array whose first item is neither a string nor an object, and an empty list of any shape are rendered as pretty JSON |
| Formatter.ReadFileFence | apps/extension/src/lib/formatter.ts:105-110 | a read_file result is headed by its path and fenced with the path's language tag, which is a table tag or "" |
| Formatter.DiffFence | apps/extension/src/lib/formatter.ts:121-124 | a diff is fenced as `diff`, with a `file: <path> (diff)` header exactly when a path is given |
| Formatter.DirListingFence | apps/extension/src/lib/formatter.ts:79-95 | a non-empty directory listing is fenced under `fold: <path or .>`, one line per entry |
| Formatter.ListsRendered | apps/extension/src/lib/formatter.ts:63-76 | a non-empty list of names goes to the server list renderer and a non-empty catalog to formatToolList, whatever the tool |
| Formatter.InheritedServerThrows | apps/extension/src/lib/formatter.ts:5-9 | a catalog holding a server named `constructor` makes formatCommandResult throw the TypeError of `push` |
| Formatter.ToolArrayDispatch | apps/extension/src/lib/formatter.ts:67-76 | a JSON array whose first item is an object binding `server` goes to formatToolList as its entries read |
| Formatter.ListingArrayDispatch | apps/extension/src/lib/formatter.ts:78-95 | a JSON array whose first item is an object binding `isDirectory` and not `server` is rendered as a listing |
| Formatter.JsonListErrors | apps/extension/src/lib/formatter.ts:67-95 | on plain JSON a tool list fails exactly when an entry cannot be read or names its server after an inherited property, and a listing exactly when an entry is null or undefined |
| Formatter.CatalogJsonAlike | apps/extension/src/lib/formatter.ts:67-76 | a catalog sent as plain JSON renders exactly as the catalog itself |
| Formatter.ListingJsonAlike | apps/extension/src/lib/formatter.ts:78-95 | a listing sent as plain JSON renders exactly as the listing itself |
| Formatter.CatalogJsonReads | apps/extension/src/lib/formatter.ts:24-43 | the JSON form of a catalog reads back as the catalog |
| Formatter.ListingJsonReads | apps/extension/src/lib/formatter.ts:78-91 | the JSON form of a listing is taken for a listing and reads back as it |
| Formatter.ToolRoundTrip | apps/extension/src/lib/formatter.ts:24-43 | one tool's JSON form reads back as the tool |
| Formatter.ToolJsonKeys | apps/extension/src/lib/formatter.ts:73 | a tool's JSON form binds `server`, and binds `inputSchema` exactly when the tool has a schema |
| Formatter.SchemaRoundTrip | apps/extension/src/lib/formatter.ts:29-43 | a schema's JSON form reads back as the schema |
| Formatter.PropRoundTrip | apps/extension/src/lib/formatter.ts:37-41 | an argument's JSON form reads back as its type and description |
| Formatter.EntryRoundTrip | apps/extension/src/lib/formatter.ts:86-91 | a listing entry's JSON form reads back as the entry |
| Formatter.ToolFromErrors | apps/extension/src/lib/formatter.ts:22-43 | an entry cannot be read exactly when it is null or undefined, has a truthy non-string description, or has a truthy schema that cannot be read; otherwise its server and name are printed and it has a schema exactly when it is truthy |
| Formatter.SchemaFromErrors | apps/extension/src/lib/formatter.ts:29-37 | a schema cannot be read exactly when `required` is not iterable or a property is null or undefined |
| Formatter.DescriptionOf | apps/extension/src/lib/formatter.ts:26-27 | a description fails exactly when it is truthy and not a string, and a printed one is the string itself |
| Formatter.PropFrom | apps/extension/src/lib/formatter.ts:37-41 | reading an argument fails exactly when it is null or undefined |
| Formatter.PropsFrom | apps/extension/src/lib/formatter.ts:36-43 | the argument loop fails exactly when some argument is null or undefined, and otherwise reads each in turn |
| Formatter.RequiredFrom | apps/extension/src/lib/formatter.ts:32 | `new Set(required \|\| [])` fails exactly for a truthy value that is neither an array nor a string |
| Formatter.RequiredHas | apps/extension/src/lib/formatter.ts:32-39 | a name counts as required exactly when the array holds it as a string |
| Formatter.ToolsFrom | apps/extension/src/lib/formatter.ts:24 | the entries fail to read exactly when one of them does, and otherwise read one for one |
| Formatter.EntriesFrom | apps/extension/src/lib/formatter.ts:86-91 | a listing fails to read exactly when an entry is null or undefined, and otherwise reads one for one |
| LanguageConfig.LanguageIsTableValue | apps/extension/src/data/config.tsx:65-88 | the tag is "" for an empty path, and otherwise the table's entry for the extension key, which is always a table tag or "" |
| LanguageConfig.InheritedKeyLeaks | apps/extension/src/data/config.tsx:68-87 | as written, a path ending `.constructor` is tagged with the text of the Object constructor, where the table's own entries give "" |
| LanguageConfig.LastPiece | apps/extension/src/data/config.tsx:67 | the last piece of `split` is the text after the last separator, or the whole string when there is none |
| LanguageConfig.ExtensionKeyAfterLastDot | apps/extension/src/data/config.tsx:67 | the key is the lower-cased text after the last `.`, or the whole lower-cased path when there is no `.` |
| LanguageConfig.KnownTag | apps/extension/src/data/config.tsx:67-87 | a lower-case, dot-free extension gets its table entry |
| LanguageConfig.TypeScriptAliases | apps/extension/src/data/config.tsx:69-70 | `.ts` and `.tsx` are tagged typescript |
| LanguageConfig.JavaScriptAliases | apps/extension/src/data/config.tsx:71-72 | `.js` and `.jsx` are tagged javascript |
| LanguageConfig.YamlAliases | apps/extension/src/data/config.tsx:84-85 | `.yaml` and `.yml` are tagged yaml |
| LanguageConfig.ShellAlias | apps/extension/src/data/config.tsx:83 | `.sh` is tagged bash |
| LanguageConfig.CaseInsensitive | apps/extension/src/data/config.tsx:67 | the lookup ignores case: lower-casing the path does not change the tag |
| McpEngine.AllSucceed | apps/extension/src/hooks/useMcpEngine.ts:71-85 | while every command succeeds, the loop sends the commands in order, each while the progress shows its own index, adds one `### [CMD]` section per command and leaves the progress at the count |
| McpEngine.StaysStopped | apps/extension/src/hooks/useMcpEngine.ts:86-91 | once the loop has broken off, later iterations change nothing |
| McpEngine.FirstFailure | apps/extension/src/hooks/useMcpEngine.ts:86-91 | the first failure response, at k, stops the batch: k + 1 requests were sent, the report holds the k earlier sections and the failure section, the progress stays at k and the failed index is k |
| McpEngine.FailedAt | apps/extension/src/hooks/useMcpEngine.ts:71-91 | right after the first failure response, at k, the run holds the k earlier sections and the failure's, shows k, is marked failed at k and has sent k + 1 requests in order |
| McpEngine.ExceptionStops | apps/extension/src/hooks/useMcpEngine.ts:104-106 | an exception at k stops the batch with no section for k, the progress at k and k + 1 requests sent |
| McpEngine.MergeServersSpec | apps/extension/src/hooks/useMcpEngine.ts:37-41 | the merged server list is sorted, has no duplicates, and holds exactly the old names and the catalog's servers |
| McpEngine.SortedDedupMembers | apps/extension/src/hooks/useMcpEngine.ts:40 | `Array.from(new Set(..)).sort()` keeps exactly the names it is given |
| McpEngine.SingleOutcomes | apps/extension/src/hooks/useMcpEngine.ts:44-57 | a success shows and copies the prompt prefix followed by the formatted result; a failure response shows the banner and the error and is not copied; a thrown fetch leaves the cleared preview |
| McpEngine.Engine.constructor | apps/extension/src/hooks/useMcpEngine.ts:11-16 | the hook's initial state: not loading, empty preview, no servers, no pending commands, progress 0, no failed index |
| McpEngine.Engine.ExecuteCommand | apps/extension/src/hooks/useMcpEngine.ts:19-61 | one request is sent (the command string alone, or the three fields); the preview and clipboard are the outcome's; the server list is merged only for a tool list; loading ends false and the batch state is untouched |
| McpEngine.Respond | apps/extension/src/hooks/useMcpEngine.ts:35-55 | handling an answer yields exactly the single-run outcome: prefix plus formatted result shown and copied on success, banner and error shown on a failure response, nothing on an exception; the server list is merged only when a tool list arrives |
| McpEngine.Engine.RunOne | apps/extension/src/hooks/useMcpEngine.ts:72-91 | one pass of the batch loop is one step of the batch run, recording the failed index exactly when the step failed |
| McpEngine.Engine.RunAll | apps/extension/src/hooks/useMcpEngine.ts:71-92 | the loop's results, progress, stop and requests are those of the batch run over all pending commands |
| McpEngine.Engine.ExecuteBatch | apps/extension/src/hooks/useMcpEngine.ts:64-109 | the report is the sections joined by a rule of forty `=`, shown and copied unless the run threw; the pending list is cleared when the failed index read at the start was null; loading ends false |
| Router.Texts | apps/server/src/index.ts:95-97 | the texts kept are exactly those of the `text` blocks, no more of them than there are blocks |
| Router.OtherBlocksIgnored | apps/server/src/index.ts:95-97 | blocks other than text never reach the data; text blocks are kept in order |
| Router.Invoke | apps/server/src/index.ts:18-113 | the handler answers every request body with the response the routing rules give, every thrown error becoming a failure carrying its message |
| Router.Dispatch | apps/server/src/index.ts:30-108 | internal tools are answered locally and everything else through the named client |
| Router.FsArgs | apps/server/src/index.ts:53-56 | the `fs` path rewrite on the argument object |
| Router.CallProvider | apps/server/src/index.ts:53-108 | once the client is found, the tool is called with the rewritten arguments (or `{}`) and its result is normalised |
| Router.CommandOverrides | apps/server/src/index.ts:23-28 | a command string that parses decides the target, whatever the other fields say |
| Router.BadCommand | apps/server/src/index.ts:23-28 | a command string that does not match fails with "Invalid command format" |
| Router.InternalDispatch | apps/server/src/index.ts:35-46 | server `internal` answers with the internal handler's data and flags, or fails with its message |
| Router.OnlyInternalStructured | apps/server/src/index.ts:30-108 | only server `internal` answers with a structured result; every other server's success is unflagged text |
| Router.ProviderAnswersText | apps/server/src/index.ts:76-108 | what a provider answers is unflagged text or a failure |
| Router.ServerNotActive | apps/server/src/index.ts:49-50 | a server that is neither `internal` nor connected fails with "Server '<name>' not active" |
| Router.FsPathRewritten | apps/server/src/index.ts:53-56 | for `fs`, a relative string path reaches the provider joined onto the project root and every other argument is unchanged; an absolute path is passed as is |
| Router.ArgsPassed | apps/server/src/index.ts:72-75 | other servers receive their arguments untouched, and falsy arguments are sent as `{}` |
| Router.ToolErrorsFail | apps/server/src/index.ts:79-89 | a result flagged isError fails with its texts joined by newlines, or with "Unknown MCP Tool Error" when it has none |
| Router.SuccessNormalised | apps/server/src/index.ts:92-108 | a successful result answers with its texts joined by blank lines, or with the result as JSON when it has no text |
| JsValue.OwnKeyOrderPermutes | apps/extension/src/lib/formatter.ts:22 | `Object.entries` visits every key of the dictionary exactly once |
| JsValue.OwnKeyOrderIndicesFirst | apps/extension/src/lib/formatter.ts:22 | `Object.entries` visits array-index keys first, in ascending numeric order |
| JsValue.OwnKeyOrderNoIndices | apps/extension/src/lib/formatter.ts:22 | without array-index keys `Object.entries` visits keys in creation order |
| JsValue.LookupLast | apps/extension/src/lib/formatter.ts:37 | reading a key finds the value of its last binding |
| ServerEnv.FindClient | apps/server/src/index.ts:49 | the client map's lookup finds a client exactly when one is registered under that name, and returns one so registered |
| ServerEnv.PathArg | apps/server/src/services/internal.ts:149 | a path function accepts exactly a string argument and uses it as is |
| ServerEnv.SiblingPassesPrefixTest | apps/server/src/services/internal.ts:150 | the root check is a plain prefix test: any resolved path that begins with the root's text passes, including a sibling directory whose name extends the root's |
| InternalTools.FormatTool | apps/server/src/services/internal.ts:106-113 | a catalog entry carries the server, the tool's name and description, and a schema exactly when detailed |
| InternalTools.Described | apps/server/src/services/internal.ts:118 | one entry per tool |
| InternalTools.SummarizeClients | apps/server/src/services/internal.ts:131-140 | the summary loop lists every client's tools in client order, a failing client as one error entry |
| InternalTools.List | apps/server/src/services/internal.ts:101-145 | the `list` branch returns the catalog the listing rules give |
| InternalTools.ListResult | apps/server/src/services/internal.ts:145 | a `list` result is a catalog flagged as a tool list and not as structured |
| InternalTools.GitResult | apps/server/src/services/internal.ts:155-219 | the git tools set neither flag |
| InternalTools.FileResult | apps/server/src/services/internal.ts:220-230 | the file tools are structured exactly for list_directory |
| InternalTools.HandleInternalTool | apps/server/src/services/internal.ts:96-236 | the handler returns the outcome the internal rules give for every tool name |
| InternalTools.UnknownTool | apps/server/src/services/internal.ts:231-233 | a tool name outside the eight handled ones fails with "Unknown internal tool: <name>" |
| InternalTools.PathRequired | apps/server/src/services/internal.ts:190-226 | read_file and get_file_diff fail with "Path is required" for a missing or falsy path |
| InternalTools.OutsideRootDenied | apps/server/src/services/internal.ts:146-229 | read_file and get_tree fail with "Access denied" when the resolved path does not start with the root |
| InternalTools.TreeDefaults | apps/server/src/services/internal.ts:146-154 | without arguments get_tree shows the project root three levels deep under "Project Root" |
| InternalTools.TreeHeader | apps/server/src/services/internal.ts:152-154 | a root other than "." heads the tree with the root and a slash |
| InternalTools.EmptyDiff | apps/server/src/services/internal.ts:155-157 | an empty diff is reported as "No changes detected." |
| InternalTools.ChangedFilesContents | apps/server/src/services/internal.ts:161-187 | the changed files are exactly the non-blank trimmed lines of either git output, each once |
| InternalTools.ChangedFilesOrder | apps/server/src/services/internal.ts:175-187 | the tracked changes come first, in their own order, before any untracked file |
| InternalTools.TrimmedNonEmptyMembers | apps/server/src/services/internal.ts:176-183 | after trim and filter, what is kept is exactly the non-empty trimmed pieces |
| InternalTools.OutputLinesTrimmed | apps/server/src/services/internal.ts:176-183 | every kept line is non-empty and already trimmed |
| InternalTools.SummaryListing | apps/server/src/services/internal.ts:129-145 | without a server, whatever the comparator, the catalog is every client's summary in client order followed by the internal tools, none of them with a schema |
| InternalTools.FailingClientReported | apps/server/src/services/internal.ts:137-139 | a client whose listTools rejects appears as one entry named `Error: ` followed by the error as String prints it, between the entries of the clients before and after it |
| InternalTools.ListedClientReported | apps/server/src/services/internal.ts:131-136 | a client whose listTools answers contributes its tools, without schemas, between the entries of the clients before and after it |
| InternalTools.SummariesAt | apps/server/src/services/internal.ts:131-140 | the summary of the clients is each client's contribution in turn |
| InternalTools.InternalListing | apps/server/src/services/internal.ts:115-119 | with server `internal`, the catalog is the eight internal tools, each with its schema |
| InternalTools.UnknownServer | apps/server/src/services/internal.ts:121-123 | a server that is neither `internal` nor connected fails with "Server not found" |
| InternalTools.Flags | apps/server/src/services/internal.ts:96-236 | only `list` sets the tool-list flag and only list_directory the structured flag |
| FsTree.Visible | apps/server/src/utils/fs.ts:18-29 | the tree keeps exactly the entries whose name is not one of the seven ignored names |
| FsTree.ArrangeContents | apps/server/src/utils/fs.ts:18-34 | after filtering and sorting, the entries shown are exactly the non-ignored ones, each as often as it was read |
| FsTree.ArrangeOrder | apps/server/src/utils/fs.ts:30-34 | when localeCompare orders names, the entries come sorted by the comparator and every directory precedes every file |
| FsTree.LastLevel | apps/server/src/utils/fs.ts:11-44 | one level short of the limit, a directory shows one line per kept entry and no subtree |
| FsTree.EntriesStep | apps/server/src/utils/fs.ts:36-44 | each entry adds its indented line and, for a directory, its own tree one level deeper |
| FsTree.GenerateTree | apps/server/src/utils/fs.ts:6-49 | generateTree returns the tree text: "" at the depth limit, an error line for an unreadable directory, and otherwise each kept entry's line followed by a directory's subtree |
| FsTree.EmitEntry | apps/server/src/utils/fs.ts:37-43 | one loop pass: the entry's line, then for a directory the tree beneath it one level deeper |
| FsTree.ListFilesWithTypes | apps/server/src/utils/fs.ts:52-71 | fails with the access-denied message exactly when the resolved path is outside the root; otherwise one entry per entry read, in order, with its name, kind and root-relative path, or a single entry naming the read error |
| FsTree.TreeEnds | apps/server/src/utils/fs.ts:11-47 | at the depth limit the tree is "", an unreadable directory short of it is one indented error line, and a NaN limit never cuts a directory with a kept entry |
| ExecutionPlan.WritingToolsWarn | apps/extension/src/components/ExecutionPlan.tsx:33-39 | an invalid command is marked invalid; a valid one whose tool name contains `write` anywhere, or is `diff`, is marked as a warning; every other is marked as reading |
| ExecutionPlan.FailedFirst | apps/extension/src/components/ExecutionPlan.tsx:41-46 | the failed row shows as failed whatever the progress, and no other row does |
| ExecutionPlan.RunningRow | apps/extension/src/components/ExecutionPlan.tsx:50-52 | a row spins exactly when it is the current row of a batch that runs unfailed |
| ExecutionPlan.DoneRows | apps/extension/src/components/ExecutionPlan.tsx:47-60 | a row is checked exactly when it lies before the progress and has not failed; rows after the progress show their kind |
| ExecutionPlan.StoppedBatch | apps/extension/src/components/ExecutionPlan.tsx:41-158 | after a batch stopped at row k, earlier rows are checked, row k is failed, later rows show their kind, Run is hidden and Close is enabled |
| ExecutionPlan.RunningBatch | apps/extension/src/components/ExecutionPlan.tsx:41-158 | while a batch runs at row k, earlier rows are checked, row k spins, later rows show their kind, and nothing can be run, cancelled or removed |
| ExecutionPlan.RunEnabled | apps/extension/src/components/ExecutionPlan.tsx:155-158 | Run can be pressed exactly when no row failed, no batch runs, and every command's arguments evaluated |
| PromptStore.SystemPrompts | apps/extension/src/data/config.tsx:7-18 | two built-in templates, `init-protocol` titled "⚡️ Initialize Sidecar Protocol" holding the system text, then `code-review` titled "Code Review" holding the review text |
| PromptStore.UserPrompts | apps/extension/src/hooks/usePrompts.ts:15-16 | the filter throws exactly when an entry is null or undefined, and otherwise keeps exactly the entries whose id is not a system id |
| PromptStore.StartsWithSystem | apps/extension/src/hooks/usePrompts.ts:7-24 | whatever storage holds, the list starts with the system prompts in their order |
| PromptStore.FallsBackToSystem | apps/extension/src/hooks/usePrompts.ts:7-24 | nothing saved, an empty string, text that does not parse, a non-array, or an array with a null entry gives exactly the system prompts |
| PromptStore.SavedEntriesKept | apps/extension/src/hooks/usePrompts.ts:12-19 | a saved array contributes exactly its entries that do not reuse a system id |
| PromptStore.UserPromptsSplit | apps/extension/src/hooks/usePrompts.ts:16 | the filter keeps the saved order: it splits over any cut of the saved array |
| PromptStore.UserPromptsKeepAll | apps/extension/src/hooks/usePrompts.ts:16 | a saved list without system ids and without nulls is kept whole and in order |
| PromptStore.SystemPromptsDropped | apps/extension/src/hooks/usePrompts.ts:15-16 | the system prompts themselves are all dropped by the filter |
| PromptStore.NoNullEntries | apps/extension/src/hooks/usePrompts.ts:7-24 | no loaded entry is null or undefined |
| PromptStore.AlwaysPersisted | apps/extension/src/hooks/usePrompts.ts:26-30 | the loaded list is never empty, so the effect always writes it back |
| PromptStore.ReloadRestores | apps/extension/src/hooks/usePrompts.ts:7-30 | reloading what was written gives the list back when the user's templates follow the system prompts unchanged |
| PromptStore.SystemEditLost | apps/extension/src/hooks/usePrompts.ts:7-30 | an edited system prompt is written but not loaded: after a reload the bundled version is back |
| PromptManager.Upsert | apps/extension/src/components/PromptManager.tsx:40-42 | saving replaces, in place, every entry with the edited template's id, or appends the template when no entry has that id |
| PromptManager.Remove | apps/extension/src/components/PromptManager.tsx:57 | deleting keeps exactly the entries whose id differs |
| PromptManager.SavedIsPresent | apps/extension/src/components/PromptManager.tsx:40-44 | after a save the edited template is in the list and no other entry has its id |
| PromptManager.UpsertIdempotent | apps/extension/src/components/PromptManager.tsx:40-42 | saving the same template twice is saving it once |
| PromptManager.RemoveAbsent | apps/extension/src/components/PromptManager.tsx:57 | deleting an id no entry has changes nothing |
| PromptManager.RemoveSplit | apps/extension/src/components/PromptManager.tsx:57 | deleting keeps the order of what remains: it splits over any cut of the list |
| PromptManager.AddThenDelete | apps/extension/src/components/PromptManager.tsx:40-61 | adding a template with a new id and then deleting that id restores the list |
| PromptManager.RemoveIdempotent | apps/extension/src/components/PromptManager.tsx:57 | deleting twice is deleting once |
| PromptManager.PromptDialog.constructor | apps/extension/src/components/PromptManager.tsx:28-32 | the dialog opens with no template in the form and no deletion pending |
| PromptManager.PromptDialog.Edit | apps/extension/src/components/PromptManager.tsx:177 | opening the form on a template changes nothing else |
| PromptManager.PromptDialog.SavePrompt | apps/extension/src/components/PromptManager.tsx:36-47 | with no template in the form nothing happens; otherwise the list gets the template in place or at the end and the form closes |
| PromptManager.PromptDialog.DeleteClick | apps/extension/src/components/PromptManager.tsx:50-52 | a delete click only records the id; nothing is deleted yet |
| PromptManager.PromptDialog.ConfirmDelete | apps/extension/src/components/PromptManager.tsx:55-61 | with an id pending every entry with that id goes and the request is cleared; with none nothing happens |
| ServerShortcuts.BuildShortcuts | apps/extension/src/components/ServerShortcuts.tsx:16-27 | the catalog command, then one catalog command per listed server, in order; the null result is never returned |
| ServerShortcuts.ExtraContents | apps/extension/src/components/ServerShortcuts.tsx:18-25 | one extra command per server that is non-empty and not `all`, and every extra command is such a server's |
| ServerShortcuts.ShortcutsShape | apps/extension/src/components/ServerShortcuts.tsx:16-25 | the list starts with `mcp:internal:list` and has one more entry per listed server |
| ServerShortcuts.ExtraSplit | apps/extension/src/components/ServerShortcuts.tsx:18-25 | the shortcuts keep the servers' order |
| ServerShortcuts.ExtraOfOne | apps/extension/src/components/ServerShortcuts.tsx:19 | servers named "" or `all` contribute nothing; any other contributes its shortcut |
| ServerShortcuts.ListAllParses | apps/extension/src/components/ServerShortcuts.tsx:16 | the catalog command parses on the server as internal/list with `{}` |
| ServerShortcuts.ShortcutParses | apps/extension/src/components/ServerShortcuts.tsx:23 | a server's shortcut parses on the server as internal/list with its JSON arguments |
| FileSearch.SplitQuery | apps/extension/src/components/FileSearch.tsx:100-111 | the input splits at its last `/` into a directory ("." when empty) and a filter without `/`; without a `/` the whole input is the filter in "." |
| FileSearch.QueryOf | apps/extension/src/components/FileSearch.tsx:100-111 | the effect's split yields a non-empty directory and a filter without `/`, the input's query |
| FileSearch.Matching | apps/extension/src/components/FileSearch.tsx:127-130 | the entries kept are exactly those whose lower-cased name contains the lower-cased filter |
| FileSearch.SuggestionsContents | apps/extension/src/components/FileSearch.tsx:127-135 | the suggestions are exactly the matching entries, each as often as it was listed |
| FileSearch.SuggestionsOrder | apps/extension/src/components/FileSearch.tsx:131-135 | when localeCompare orders names, the suggestions come sorted, every directory before every file |
| FileSearch.EmptyFilterKeepsAll | apps/extension/src/components/FileSearch.tsx:127-130 | an empty filter keeps every listed entry |
| FileSearch.NextIndexBounds | apps/extension/src/components/FileSearch.tsx:179-183 | ArrowDown selects the next row, wrapping to the first, and from no selection the first |
| FileSearch.PrevIndexBounds | apps/extension/src/components/FileSearch.tsx:184-190 | ArrowUp selects the previous row, wrapping to the last; from no selection it lands on the second-to-last row (JavaScript `%` keeps the dividend's sign) |
| FileSearch.ArrowsInverse | apps/extension/src/components/FileSearch.tsx:179-190 | ArrowUp undoes ArrowDown on any selected row, and the reverse |
| FileSearch.CompletionOfDirectory | apps/extension/src/components/FileSearch.tsx:155-160 | completing a directory ends the input with `/`, so the next query lists that directory with an empty filter |
| FileSearch.CompletionOfFile | apps/extension/src/components/FileSearch.tsx:155-160 | completing a file keeps the query's directory and makes the name the filter |
| FileSearch.CompletionQuery | apps/extension/src/components/FileSearch.tsx:155-160 | the query after a completion: a file keeps the directory, a directory is listed next with an empty filter |
| FileSearch.SettleKeepsValid | apps/extension/src/components/FileSearch.tsx:66-69 | every change of the input keeps the selection on a row or on none, and new suggestions reset it |
| FileSearch.EventsKeepValid | apps/extension/src/components/FileSearch.tsx:46-233 | every event of the box keeps the selection on a row or on none |
| FileSearch.KeyKeepsValid | apps/extension/src/components/FileSearch.tsx:177-211 | every key keeps the selection on a row or on none, and resets it whenever the suggestions change |
| FileSearch.TypingSearches | apps/extension/src/components/FileSearch.tsx:85-153 | a typed change with the lock armed lists the query's directory, and a successful listing becomes the suggestions with the dropdown open and no row selected |
| FileSearch.ClearingEmpties | apps/extension/src/components/FileSearch.tsx:92-95 | clearing the input clears the suggestions without listing anything |
| FileSearch.SetValueSkipsSearch | apps/extension/src/components/FileSearch.tsx:46-52 | a value set from outside does not search; the lock is re-armed, so the next typed change searches again |
| FileSearch.SameValueLeavesLock | apps/extension/src/components/FileSearch.tsx:48-51 | setting the value the input already holds leaves the lock set, so the next typed change is not searched |
| FileSearch.EnterSelects | apps/extension/src/components/FileSearch.tsx:201-210 | Enter on a selected row hands its completion to onSelect and closes the dropdown without searching; with no selected row it hands over the input as it is |
| FileSearch.SettleSearches | apps/extension/src/components/FileSearch.tsx:85-153 | a settled change takes the value and, with the lock armed, a real change to a non-empty value lists its directory |
| FileSearch.TabCompletes | apps/extension/src/components/FileSearch.tsx:191-198 | Tab completes the selected row, or the first, without locking the search, so a completed directory is listed next |
| FileSearch.ListedEntries | apps/extension/src/components/FileSearch.tsx:124-125 | the box takes entries only from a successful structured response, and then exactly its entries |
| FileSearch.FsListerFindsNothing | apps/extension/src/components/FileSearch.tsx:113-125 | as written, the listing request to server `fs` yields nothing for any directory |
| FileSearch.FsSearchSuggestsNothing | apps/extension/src/components/FileSearch.tsx:85-153 | as written, a search only records the directory: suggestions, selection and dropdown stay as they were |
| FileSearch.InternalListerLists | apps/extension/src/components/FileSearch.tsx:113-125 | the corrected request yields exactly the entries the internal listing finds, and nothing when it fails |
| FileSearch.ListDirectoryAnswer | apps/server/src/services/internal.ts:220-223 | the internal `list_directory` on `{path: dir}` answers with the directory's entries flagged as structured, or fails when the listing fails |
| FileSearch.InternalSearchSuggests | apps/extension/src/components/FileSearch.tsx:85-153 | with the corrected request, a search over a readable directory makes its matching entries, sorted, the suggestions |
| FileSearch.SearchBox.constructor | apps/extension/src/components/FileSearch.tsx:34-44 | the box starts empty, closed, with no row selected and the lock armed |
| FileSearch.SearchBox.GetValue | apps/extension/src/components/FileSearch.tsx:47 | getValue returns the current input |
| FileSearch.SearchBox.SetValue | apps/extension/src/components/FileSearch.tsx:48-51 | setValue locks the search and sets the value |
| FileSearch.SearchBox.InputChanged | apps/extension/src/components/FileSearch.tsx:227-230 | typing sets the value and opens the dropdown |
| FileSearch.SearchBox.Focus | apps/extension/src/components/FileSearch.tsx:231-233 | focusing reopens the dropdown when there are suggestions |
| FileSearch.SearchBox.SetInput | apps/extension/src/components/FileSearch.tsx:85-153 | setting the input runs the search effect only when the value changes |
| FileSearch.SearchBox.RunSearchEffect | apps/extension/src/components/FileSearch.tsx:85-153 | the search effect: a locked run only re-arms the lock, an empty input clears the suggestions, otherwise the matching entries of the listed directory become the suggestions |
| FileSearch.SearchBox.ItemAction | apps/extension/src/components/FileSearch.tsx:155-175 | choosing an entry completes the input; an execution also locks the search, closes the dropdown and hands the path to onSelect |
| FileSearch.SearchBox.KeyDown | apps/extension/src/components/FileSearch.tsx:177-211 | the keys move, complete or select as the key handler says |

Where the code and the documented intent differ, the model follows the code:

- **Clearing the pending list after a batch.** The intent is to clear it only after a
  clean run. The code decides with the `failedIndex` value read when the batch started
  (apps/extension/src/hooks/useMcpEngine.ts:98). A batch can only be started while that
  value is null, because Run is hidden otherwise. So a batch that stops on a failure
  still clears the list. `McpEngine.Engine.ExecuteBatch` states this.
- **ArrowUp with no row selected.** It selects the second-to-last row, not the last
  (`FileSearch.PrevIndexBounds`).

## Left out

- Argument evaluation with `new Function`, `JSON.parse` and `JSON.stringify` are oracle
  parameters. Their results are taken as given, and nothing is claimed about what they
  compute.
- The network, `fetch` and the `invokeAPI` wrapper are left out. Each request is answered
  by an oracle: `McpEngine.Invoker` for a batch, and a given answer for a single run.
- Loading flags and toasts are left out, and so are the states in between that React
  shows while an `await` is pending. The hook's state is modelled as fields updated in
  program order. Only the final value of each field is stated.
- Clipboard writes are modelled as a `clipboard` field. The write cannot fail in the
  model.
- The `localStorage` write is modelled as the value the effect would store
  (`PromptStore.Persisted`). The storage itself is not modelled.
- `path.resolve`, `path.join`, `path.relative` and `path.isAbsolute` are uninterpreted
  functions of the host. Normalisation, `..` segments and platform separators are
  therefore not modelled. The root check is the plain string-prefix test the code makes.
- `localeCompare` is an uninterpreted comparator. The ordering lemmas
  (`FsTree.ArrangeOrder`, `FileSearch.SuggestionsOrder`) assume that it is a total
  order.
- The default `Array.prototype.sort` of the server list compares strings by UTF-16 code
  units. It is modelled as comparing Dafny characters, which agrees with it outside the
  surrogate range.
- JsText.ToLower: lower-cases ASCII letters only. The full Unicode case mapping of
  `toLowerCase` is not modelled.
- The `fs.mkdir` pre-creation of a parent directory before `write_file`
  (apps/server/src/index.ts:57-68) is left out. It only warns on failure and does not
  change the response.
- Logging with `console.log` and `console.error` is left out.
- `readdir`, `readFile`, the git shell commands and the MCP clients' `listTools` and
  `callTool` are oracle fields of `ServerEnv.Host`. The tree is a finite datatype, so
  symbolic-link cycles cannot be expressed.
- The client map is a sequence of name and client pairs in insertion order.
  ServerEnv.FindClient: returns the first pair with the name. A JavaScript `Map` never
  holds two, so the two agree on every map the server can build.
- Macros are left out: `generateContext` and `generateReview`
  (apps/extension/src/hooks/useMcpEngine.ts:113-249). They are `Promise.all` fan-outs of
  network calls joined into a fixed text.
- The server's setup is left out: Express, cors, `app.listen`, MCP client connection and
  configuration loading.
- The presentational parts of the extension are left out: JSX rendering and styling, the
  argument preview truncation in ExecutionPlan, CommandBar, QuickActions,
  CollapsibleSection, ResultPreview and App.tsx.
- In FileSearch, these are left out: the 300 ms debounce of the search effect, the
  out-of-order completion of two searches, the outside-click listener and
  scrollIntoView. In the model the search effect runs right after each input change and
  its listing arrives at once (`FileSearch.Lister`).
- Numbers are integers. `parseInt` of the depth argument is an oracle that returns None
  for NaN, and a NaN depth never cuts the tree.
- JsValue: property reads on JavaScript values cover own properties only. Inherited
  properties change the result in two places, and both are modelled: the language table
  (listed under Findings), and formatToolList's dictionary, where a server named after
  an inherited property makes `push` throw (`Formatter.AddTool`).
- The texts of the TypeErrors that the formatter's reads throw follow V8's wording but
  are not claimed to be exact. Which reads fail is modelled.
- A listing entry's `path` is decoded, but formatCommandResult never reads it
  (apps/extension/src/lib/formatter.ts:86-91). Only `EntryRoundTrip` states it.
- InternalTools.ClientSummary: the error entry of a failing client has no description in
  the source. The model gives it the empty description, which formatToolList treats the
  same way, because an absent description is falsy.
- Formatter.EntryFrom: states only when an entry fails to read. What it reads for
  `isDirectory` and `name` is stated through `EntryRoundTrip` and `ListingJsonReads`.
- A rejected `listTools` prints as `${e}`, the error as String shows it
  (`ServerEnv.Rejection.shown`). How an error object prints is an oracle.

## Findings

| source | as written | input that shows it | evidently intended | confidence | as-written member | corrected member |
|---|---|---|---|---|---|---|
| apps/extension/src/data/config.tsx:68-87 | the extension table is an object literal, so `map[ext]` also finds the properties every object inherits | `getLanguageFromPath("a.constructor")` yields the source text of the Object constructor, which `formatCommandResult` puts after the opening fence of a read_file result | only the table's own entries are looked up, so an unlisted extension gives "" | not executed | LanguageConfig.InheritedKeyLeaks | LanguageConfig.LanguageIsTableValue |
| apps/extension/src/components/FileSearch.tsx:113-125 | the search box asks server `fs` for `list_directory` and uses the answer only when it is flagged `isStructured`, but only the internal `list_directory` sets that flag (apps/server/src/services/internal.ts:220-223); a connected `fs` server answers with plain text | typing `src/` with any `fs` server connected, or none: the response is text or a failure, so no suggestion ever appears | the request names server `internal`, whose `list_directory` answers with the structured entries the box filters | not executed | FileSearch.FsSearchSuggestsNothing | FileSearch.InternalSearchSuggests |
