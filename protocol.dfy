/**
 * Records shared by the extension and the server: directory entries, tool catalog
 * entries, the payload shapes a tool result can take, and the /api/invoke request and
 * response bodies.
 */
module Protocol {
  import opened Wrappers
  import opened JsValue

  /** A directory entry as list_directory returns it. */
  datatype FileEntry = FileEntry(name: string, isDirectory: bool, path: string)

  /** One property of an input schema: its type and description as text, None where the
   *  value is absent or falsy. */
  datatype PropInfo = PropInfo(typ: Option<string>, description: Option<string>)

  /** An input schema: its properties in creation order (a key bound twice reads its last
   *  binding) and its required names. */
  datatype Schema = Schema(properties: seq<(string, PropInfo)>, required: seq<string>)

  /**
   * A catalog entry of the `list` tool: the server, the tool name, its description ("" when
   * absent) and, in a detailed listing only, the input schema.
   */
  datatype ToolInfo = ToolInfo(server: string, name: string, description: string, inputSchema: Option<Schema>)

  /**
   * The shapes a tool result takes: a list of server names, a tool catalog, a directory
   * listing, any other non-null object, or text.
   */
  datatype Payload =
    | StringList(items: seq<string>)
    | Catalog(tools: seq<ToolInfo>)
    | DirEntries(entries: seq<FileEntry>)
    | Object(value: Value)
    | Text(text: string)

  /** The body /api/invoke answers with. */
  datatype Response =
    | Success(data: Payload, isToolList: bool, isStructured: bool)
    | Failure(error: string)

  /** The body /api/invoke receives: four properties of any JSON value (undefined when
   *  absent). */
  datatype Request = Request(serverName: Value, toolName: Value, args: Value, command: Value)
}
