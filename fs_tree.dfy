/**
 * The server's file helpers: the indented directory tree of get_tree and the structured
 * listing of list_directory.
 */
module FsTree {
  import opened Wrappers
  import opened JsText
  import opened Collections
  import opened Protocol
  import opened ServerEnv

  /** Names the tree never shows, at any depth. */
  const Ignored: seq<string> := ["node_modules", ".git", "dist", ".DS_Store", "coverage", "build", ".next"]

  /** String.prototype.localeCompare, an oracle: negative when the first name sorts first. */
  type Collate = (string, string) -> int

  /** The entries the tree keeps: those whose name is not ignored, in readdir order. */
  function Visible(nodes: seq<Node>): (r: seq<Node>)
    ensures forall n :: n in r <==> n in nodes && n.name !in Ignored
  {
    if nodes == [] then []
    else
      var last := nodes[|nodes| - 1];
      var init := Visible(nodes[..|nodes| - 1]);
      assert nodes == nodes[..|nodes| - 1] + [last];
      if last.name in Ignored then init else init + [last]
  }

  /** The tree's comparator: directories first, then by localeCompare on the names. */
  function Before(collate: Collate): (Node, Node) -> bool {
    DirsFirst((n: Node) => n.isDirectory, (n: Node) => n.name, collate)
  }

  /** The entries of one directory as the tree shows them: filtered, then sorted. */
  function Arrange(nodes: seq<Node>, collate: Collate): seq<Node> {
    Sort(Visible(nodes), Before(collate))
  }

  /** The depth limit, where None is NaN (a depth argument parseInt cannot read): no
   *  comparison with NaN holds, so such a tree is never cut. */
  predicate Reached(depth: nat, maxDepth: Option<int>) {
    maxDepth.Some? && depth >= maxDepth.value
  }

  function Indent(depth: nat): string { Repeat("  ", depth) }

  function Prefix(depth: nat): string { if depth == 0 then "" else "\U{251C}\U{2500}\U{2500} " }

  /** The line of one entry: indentation, branch, name, and `/` for a directory. */
  function EntryLine(e: Node, depth: nat): string {
    Indent(depth) + Prefix(depth) + e.name + (if e.isDirectory then "/\n" else "\n")
  }

  /** generateTree(dir, depth, maxDepth) on what reading dir yields. */
  function TreeText(listing: Listing, depth: nat, maxDepth: Option<int>, collate: Collate): string
    decreases listing, 2, 0
  {
    if Reached(depth, maxDepth) then ""
    else match listing
      case Unreadable(_) => Indent(depth) + "Error reading directory\n"
      case Entries(nodes) =>
        ArrangedFromListing(nodes, collate);
        EntriesText(listing, Arrange(nodes, collate), depth, maxDepth, collate)
  }

  /** The text of a run of entries of `listing`: each entry's line, and after a
   *  directory's line its own tree one level deeper. */
  function EntriesText(listing: Listing, es: seq<Node>, depth: nat, maxDepth: Option<int>, collate: Collate): string
    requires listing.Entries? && forall e :: e in es ==> e in listing.nodes
    decreases listing, 1, |es|
  {
    if es == [] then ""
    else
      var e := es[|es| - 1];
      ContentsSmaller(listing, e);
      EntriesText(listing, es[..|es| - 1], depth, maxDepth, collate)
      + EntryLine(e, depth)
      + (if e.isDirectory then TreeText(e.contents, depth + 1, maxDepth, collate) else "")
  }

  /** At the depth limit the tree is empty, whatever the directory holds; short of it an
   *  unreadable directory is one indented error line. A NaN limit never cuts. */
  lemma TreeEnds(listing: Listing, depth: nat, maxDepth: Option<int>, collate: Collate)
    ensures maxDepth.Some? && depth >= maxDepth.value ==> TreeText(listing, depth, maxDepth, collate) == ""
    ensures !Reached(depth, maxDepth) && listing.Unreadable? ==>
      TreeText(listing, depth, maxDepth, collate) == Indent(depth) + "Error reading directory\n"
    ensures maxDepth.None? && listing.Entries? && listing.nodes != [] && Visible(listing.nodes) != [] ==>
      TreeText(listing, depth, maxDepth, collate) != ""
  {
    if maxDepth.None? && listing.Entries? && Visible(listing.nodes) != [] {
      var a := Arrange(listing.nodes, collate);
      ArrangeContents(listing.nodes, collate);
      assert Visible(listing.nodes)[0] in a;
      ArrangedFromListing(listing.nodes, collate);
      var k := |a| - 1;
      assert a[..k + 1] == a;
      EntriesStep(listing, a, k, depth, maxDepth, collate);
    }
  }

  /** What an entry of a listing contains is smaller than the listing. */
  lemma ContentsSmaller(listing: Listing, e: Node)
    requires listing.Entries? && e in listing.nodes
    ensures e.contents < listing
  {
    var i :| 0 <= i < |listing.nodes| && listing.nodes[i] == e;
    assert listing.nodes[i].contents < listing.nodes[i];
  }

  /** Sorting keeps the entries, so every arranged entry is one that was read. */
  lemma ArrangedFromListing(nodes: seq<Node>, collate: Collate)
    ensures forall e :: e in Arrange(nodes, collate) ==> e in nodes
  {
    var v := Visible(nodes);
    assert multiset(Arrange(nodes, collate)) == multiset(v);
    forall e | e in Arrange(nodes, collate) ensures e in nodes {
      assert e in multiset(v);
    }
  }

  /** The tree shows exactly the entries whose name is not ignored, each as often as it
   *  was read. */
  lemma ArrangeContents(nodes: seq<Node>, collate: Collate)
    ensures forall e :: e in Arrange(nodes, collate) <==> e in nodes && e.name !in Ignored
    ensures multiset(Arrange(nodes, collate)) == multiset(Visible(nodes))
  {
    var v := Visible(nodes);
    var a := Arrange(nodes, collate);
    assert multiset(a) == multiset(v);
    forall e ensures e in a <==> e in v {
      assert e in a <==> e in multiset(a);
      assert e in v <==> e in multiset(v);
    }
  }

  /** When localeCompare orders names, the entries come sorted by the comparator, and every
   *  directory precedes every file. */
  lemma ArrangeOrder(nodes: seq<Node>, collate: Collate)
    requires CollateOrder(collate)
    ensures SortedBy(Arrange(nodes, collate), Before(collate))
    ensures var a := Arrange(nodes, collate);
      forall i, j :: 0 <= i < j < |a| && a[j].isDirectory ==> a[i].isDirectory
  {
    DirsFirstIsStrict((n: Node) => n.isDirectory, (n: Node) => n.name, collate);
    SortSorted(Visible(nodes), Before(collate));
    DirsBeforeFiles(Arrange(nodes, collate), (n: Node) => n.isDirectory, (n: Node) => n.name, collate);
  }

  /** The lines of a run of entries, without any subtree. */
  function Lines(es: seq<Node>, depth: nat): string {
    if es == [] then "" else Lines(es[..|es| - 1], depth) + EntryLine(es[|es| - 1], depth)
  }

  /** One level short of the limit, a directory shows one line per kept entry and no
   *  subtree beneath any of them. */
  lemma LastLevel(nodes: seq<Node>, depth: nat, collate: Collate)
    ensures TreeText(Entries(nodes), depth, Some(depth + 1), collate) == Lines(Arrange(nodes, collate), depth)
  {
    ArrangedFromListing(nodes, collate);
    LastLevelEntries(Entries(nodes), Arrange(nodes, collate), depth, collate);
  }

  lemma {:induction false} LastLevelEntries(listing: Listing, es: seq<Node>, depth: nat, collate: Collate)
    requires listing.Entries? && forall e :: e in es ==> e in listing.nodes
    ensures EntriesText(listing, es, depth, Some(depth + 1), collate) == Lines(es, depth)
  {
    if es != [] {
      LastLevelEntries(listing, es[..|es| - 1], depth, collate);
    }
  }

  /** One more entry of a run adds its line and, for a directory, its subtree. */
  lemma EntriesStep(listing: Listing, es: seq<Node>, k: nat, depth: nat, maxDepth: Option<int>, collate: Collate)
    requires listing.Entries? && forall e :: e in es ==> e in listing.nodes
    requires k < |es|
    ensures forall e :: e in es[..k] ==> e in listing.nodes
    ensures forall e :: e in es[..k + 1] ==> e in listing.nodes
    ensures es[k] in listing.nodes
    ensures EntriesText(listing, es[..k + 1], depth, maxDepth, collate)
      == EntriesText(listing, es[..k], depth, maxDepth, collate)
         + (EntryLine(es[k], depth)
            + (if es[k].isDirectory then TreeText(es[k].contents, depth + 1, maxDepth, collate) else ""))
  {
    TakeSnoc(es, k);
    assert es[..k + 1][k] == es[k];
  }

  /** generateTree: the depth check, the filter, the sort, then one pass over the entries
   *  that recurses into each directory. */
  method GenerateTree(listing: Listing, currentDepth: nat, maxDepth: Option<int>, collate: Collate)
    returns (result: string)
    ensures result == TreeText(listing, currentDepth, maxDepth, collate)
    decreases listing, 2, 0
  {
    if Reached(currentDepth, maxDepth) {
      return "";
    }
    var indent := Repeat("  ", currentDepth);
    var prefix := if currentDepth == 0 then "" else "\U{251C}\U{2500}\U{2500} ";
    match listing {
      case Unreadable(_) =>
        result := indent + "Error reading directory\n";
      case Entries(nodes) =>
        result := "";
        var filtered := Visible(nodes);
        filtered := Sort(filtered, Before(collate));
        ArrangedFromListing(nodes, collate);
        assert indent == Indent(currentDepth) && prefix == Prefix(currentDepth);
        assert forall e :: e in filtered ==> e in listing.nodes;
        for k := 0 to |filtered|
          invariant forall e :: e in filtered[..k] ==> e in listing.nodes
          invariant result == EntriesText(listing, filtered[..k], currentDepth, maxDepth, collate)
        {
          EntriesStep(listing, filtered, k, currentDepth, maxDepth, collate);
          var text := EmitEntry(listing, filtered[k], indent, prefix, currentDepth, maxDepth, collate);
          result := result + text;
        }
        assert filtered[..|filtered|] == filtered;
    }
  }

  /** The body of generateTree's loop for one entry: its line, then for a directory the
   *  tree beneath it one level deeper. */
  method EmitEntry(listing: Listing, entry: Node, indent: string, prefix: string, depth: nat,
                   maxDepth: Option<int>, collate: Collate) returns (text: string)
    requires listing.Entries? && entry in listing.nodes
    requires indent == Indent(depth) && prefix == Prefix(depth)
    ensures text == EntryLine(entry, depth)
      + (if entry.isDirectory then TreeText(entry.contents, depth + 1, maxDepth, collate) else "")
    decreases listing, 1, 0
  {
    text := indent + prefix + entry.name + (if entry.isDirectory then "/\n" else "\n");
    assert text == EntryLine(entry, depth);
    var sub := "";
    if entry.isDirectory {
      ContentsSmaller(listing, entry);
      sub := GenerateTree(entry.contents, depth + 1, maxDepth, collate);
    }
    text := text + sub;
  }

  const AccessDenied: string := "Access denied: Cannot access paths outside PROJECT_ROOT"

  /** listFilesWithTypes: resolve against the root, refuse a path outside it, and report
   *  every entry read (ignored names included, unsorted) with its path relative to the
   *  root; a read error becomes a single entry naming it. */
  function ListFilesWithTypes(host: Host, dirPath: string): (r: Result<seq<FileEntry>, string>)
    ensures var full := host.resolve(host.root, dirPath);
      && (r.Err? <==> !InsideRoot(host, full))
      && (r.Err? ==> r.error == AccessDenied)
      && (r.Ok? && host.tree(full).Entries? ==>
            var nodes := host.tree(full).nodes;
            && |r.value| == |nodes|
            && forall i :: 0 <= i < |nodes| ==>
                 && r.value[i].name == nodes[i].name
                 && r.value[i].isDirectory == nodes[i].isDirectory
                 && r.value[i].path == host.relative(host.root, host.join(full, nodes[i].name)))
      && (r.Ok? && host.tree(full).Unreadable? ==>
            r.value == [FileEntry("Error: " + host.tree(full).message, false, "")])
  {
    var full := host.resolve(host.root, dirPath);
    if !StartsWith(full, host.root) then Err(AccessDenied)
    else match host.tree(full)
      case Unreadable(message) => Ok([FileEntry("Error: " + message, false, "")])
      case Entries(nodes) =>
        Ok(seq(|nodes|, i requires 0 <= i < |nodes| =>
          FileEntry(nodes[i].name, nodes[i].isDirectory, host.relative(host.root, host.join(full, nodes[i].name)))))
  }
}
