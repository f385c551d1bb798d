/**
 * The path search box of the extension: the typed path is split into a directory to list
 * and a filter term, matching entries become suggestions (directories first), the arrow
 * keys move a selection around them, Tab completes and Enter selects. A lock flag keeps
 * a value set from outside, or an executed selection, from starting a search.
 */
module FileSearch {
  import opened Wrappers
  import opened JsText
  import opened Collections
  import opened Protocol
  import JsValue
  import ServerEnv
  import FsTree
  import Router
  import InternalTools

  /** The directory a query lists and the term its entries are filtered by. */
  datatype Query = Query(dir: string, filter: string)

  /** The last position of `/` is the one after which no `/` follows. */
  lemma LastSlashAt(s: string, m: nat)
    requires m < |s| && s[m] == '/'
    requires forall i :: m < i < |s| ==> s[i] != '/'
    ensures LastIndexOf(s, '/') == m
  {
    assert '/' in s;
  }

  /** The query of an input: split at its last `/` (an empty directory part is "."), or
   *  the whole input as the filter in "." when it has no `/`. */
  function SplitQuery(input: string): (q: Query)
    ensures '/' !in q.filter
    ensures '/' !in input ==> q == Query(".", input)
    ensures '/' in input ==> exists d :: input == d + "/" + q.filter && q.dir == (if d == "" then "." else d)
  {
    var k := LastIndexOf(input, '/');
    if k == -1 then Query(".", input)
    else
      var d := input[..k];
      assert input == d + "/" + input[k + 1..];
      var f := input[k + 1..];
      assert forall i :: 0 <= i < |f| ==> f[i] == input[k + 1 + i];
      Query(if d == "" then "." else d, input[k + 1..])
  }

  /** The entries whose lower-cased name contains the lower-cased filter, in the order
   *  listed. */
  function Matching(files: seq<FileEntry>, filter: string): (r: seq<FileEntry>)
    ensures forall f :: f in r <==> f in files && Contains(ToLower(f.name), ToLower(filter))
  {
    if files == [] then []
    else
      var last := files[|files| - 1];
      var init := Matching(files[..|files| - 1], filter);
      assert files == files[..|files| - 1] + [last];
      if Contains(ToLower(last.name), ToLower(filter)) then init + [last] else init
  }

  /** The sort comparator: directories first, then localeCompare on the names. */
  function EntryOrder(collate: (string, string) -> int): (FileEntry, FileEntry) -> bool {
    DirsFirst((f: FileEntry) => f.isDirectory, (f: FileEntry) => f.name, collate)
  }

  /** The suggestions for a listing and a filter term. */
  function Suggestions(files: seq<FileEntry>, filter: string, collate: (string, string) -> int): seq<FileEntry> {
    Sort(Matching(files, filter), EntryOrder(collate))
  }

  /** The suggestions are exactly the matching entries, each as often as it was listed. */
  lemma SuggestionsContents(files: seq<FileEntry>, filter: string, collate: (string, string) -> int)
    ensures forall f :: (f in Suggestions(files, filter, collate)
      <==> f in files && Contains(ToLower(f.name), ToLower(filter)))
    ensures multiset(Suggestions(files, filter, collate)) == multiset(Matching(files, filter))
  {
    var m := Matching(files, filter);
    var s := Suggestions(files, filter, collate);
    forall f ensures f in s <==> f in m {
      assert f in s <==> f in multiset(s);
      assert f in m <==> f in multiset(m);
    }
  }

  /** When localeCompare orders names, the suggestions come sorted, every directory
   *  before every file. */
  lemma SuggestionsOrder(files: seq<FileEntry>, filter: string, collate: (string, string) -> int)
    requires CollateOrder(collate)
    ensures SortedBy(Suggestions(files, filter, collate), EntryOrder(collate))
    ensures var s := Suggestions(files, filter, collate);
      forall i, j :: 0 <= i < j < |s| && s[j].isDirectory ==> s[i].isDirectory
  {
    var isDir := (f: FileEntry) => f.isDirectory;
    var name := (f: FileEntry) => f.name;
    DirsFirstIsStrict(isDir, name, collate);
    SortSorted(Matching(files, filter), EntryOrder(collate));
    DirsBeforeFiles(Suggestions(files, filter, collate), isDir, name, collate);
  }

  /** An empty filter keeps every listed entry. */
  lemma {:induction false} EmptyFilterKeepsAll(files: seq<FileEntry>)
    ensures Matching(files, "") == files
  {
    if files != [] {
      EmptyFilterKeepsAll(files[..|files| - 1]);
      assert StartsWith(ToLower(files[|files| - 1].name), "");
      assert files == files[..|files| - 1] + [files[|files| - 1]];
    }
  }

  /** JavaScript's `%`, whose result takes the sign of the dividend. */
  function JsRem(a: int, n: int): int
    requires n > 0
  {
    if a >= 0 then a % n else -((-a) % n)
  }

  /** ArrowDown: `(prev + 1) % n`. */
  function NextIndex(prev: int, n: int): int
    requires n > 0
  {
    JsRem(prev + 1, n)
  }

  /** ArrowUp: `(prev - 1 + n) % n`. */
  function PrevIndex(prev: int, n: int): int
    requires n > 0
  {
    JsRem(prev - 1 + n, n)
  }

  /** From no selection or a row, ArrowDown selects the next row, wrapping to the first;
   *  from no selection it selects the first. */
  lemma NextIndexBounds(prev: int, n: int)
    requires n > 0 && -1 <= prev < n
    ensures 0 <= NextIndex(prev, n) < n
    ensures NextIndex(prev, n) == if prev == n - 1 then 0 else prev + 1
  {
  }

  /** From a row, ArrowUp selects the previous row, wrapping to the last; from no
   *  selection it lands on the second-to-last row (the only row when there is one). */
  lemma PrevIndexBounds(prev: int, n: int)
    requires n > 0 && -1 <= prev < n
    ensures 0 <= PrevIndex(prev, n) < n
    ensures 0 <= prev ==> PrevIndex(prev, n) == if prev == 0 then n - 1 else prev - 1
    ensures prev == -1 ==> PrevIndex(prev, n) == if n >= 2 then n - 2 else 0
  {
    if prev == -1 && n == 1 {
      assert JsRem(-1, 1) == 0;
    }
  }

  /** ArrowUp undoes ArrowDown on any selected row, and the reverse. */
  lemma ArrowsInverse(i: int, n: int)
    requires n > 0 && 0 <= i < n
    ensures PrevIndex(NextIndex(i, n), n) == i
    ensures NextIndex(PrevIndex(i, n), n) == i
  {
    NextIndexBounds(i, n);
    PrevIndexBounds(i, n);
    NextIndexBounds(PrevIndex(i, n), n);
    PrevIndexBounds(NextIndex(i, n), n);
  }

  /** The input after choosing an entry: the input through its last `/`, the entry's
   *  name, and a `/` after a directory. */
  function Completion(input: string, item: FileEntry): string {
    var k := LastIndexOf(input, '/');
    var prefix := if k != -1 then input[..k + 1] else "";
    prefix + item.name + (if item.isDirectory then "/" else "")
  }

  /** Completing a directory ends the input with `/`, so its query has an empty filter
   *  and lists the completed path. */
  lemma CompletionOfDirectory(input: string, item: FileEntry)
    requires item.isDirectory
    ensures var d := Completion(input, item)[..|Completion(input, item)| - 1];
      SplitQuery(Completion(input, item)) == Query(if d == "" then "." else d, "")
  {
    var full := Completion(input, item);
    LastSlashAt(full, |full| - 1);
    assert full[|full| - 1 + 1..] == "";
  }

  /** Completing a file after the input's last `/` keeps that directory. */
  lemma CompletionOfFile(input: string, item: FileEntry)
    requires !item.isDirectory && '/' !in item.name
    ensures SplitQuery(Completion(input, item)) == Query(SplitQuery(input).dir, item.name)
  {
    var k := LastIndexOf(input, '/');
    var full := Completion(input, item);
    if k != -1 {
      assert full == input[..k + 1] + item.name;
      assert forall i :: k < i < |full| ==> full[i] == item.name[i - k - 1];
      LastSlashAt(full, k);
      assert full[..k] == input[..k];
      assert full[k + 1..] == item.name;
    } else {
      assert full == item.name;
    }
  }

  /** Completing a file keeps the query's directory and makes the name the filter;
   *  completing a directory queries that directory with an empty filter, so Tab lists
   *  its entries next. */
  lemma CompletionQuery(input: string, item: FileEntry)
    requires '/' !in item.name
    ensures !item.isDirectory ==> SplitQuery(Completion(input, item)) == Query(SplitQuery(input).dir, item.name)
    ensures item.isDirectory ==> SplitQuery(Completion(input, item)).filter == ""
    ensures item.isDirectory ==>
      var k := LastIndexOf(input, '/');
      var d := (if k != -1 then input[..k + 1] else "") + item.name;
      SplitQuery(Completion(input, item)).dir == if d == "" then "." else d
  {
    if item.isDirectory {
      var k := LastIndexOf(input, '/');
      var d := (if k != -1 then input[..k + 1] else "") + item.name;
      var full := Completion(input, item);
      assert full == d + "/";
      assert full[..|full| - 1] == d;
      CompletionOfDirectory(input, item);
    } else {
      CompletionOfFile(input, item);
    }
  }

  /** A key the box reacts to. */
  datatype Key = ArrowDown | ArrowUp | Tab | Enter | OtherKey

  /**
   * The component's state: the input, the suggestions and their selected row, whether
   * the dropdown shows, the lock flag, and two logs of what left the component: the
   * paths handed to onSelect and the directories a search listed.
   */
  datatype Box = Box(
    inputValue: string,
    suggestions: seq<FileEntry>,
    showDropdown: bool,
    selectedIndex: int,
    shouldSearch: bool,
    selected: seq<string>,
    searched: seq<string>)

  /** A listing request for a directory: the entries when the response was a
   *  successful structured listing, None when it was not or the request failed. The box
   *  is stated over any lister; ServerLister is the one the component builds. */
  type Lister = string -> Option<seq<FileEntry>>

  /** What the box takes from an invoke response: the entries of a successful structured
   *  listing, nothing from a failure or an unstructured answer. */
  function ListedEntries(r: Response): (es: Option<seq<FileEntry>>)
    ensures es.Some? <==> r.Success? && r.isStructured && r.data.DirEntries?
    ensures es.Some? ==> es.value == r.data.entries
  {
    if r.Success? && r.isStructured && r.data.DirEntries? then Some(r.data.entries) else None
  }

  /** The listing the box asks for: `list_directory` on the named server with the
   *  directory as `path`, as the server's router answers it. */
  function ServerLister(host: ServerEnv.Host, collate: FsTree.Collate, serverName: string): Lister {
    dir => ListedEntries(Router.Route(host, collate, JsValue.Str(serverName), JsValue.Str("list_directory"),
                                      JsValue.Obj([("path", JsValue.Str(dir))])))
  }

  /** The lister as written: the request names server `fs`. */
  function FsLister(host: ServerEnv.Host, collate: FsTree.Collate): Lister {
    ServerLister(host, collate, "fs")
  }

  /** The lister as intended: the internal `list_directory`, the one tool that answers
   *  with a structured listing. */
  function InternalLister(host: ServerEnv.Host, collate: FsTree.Collate): Lister {
    ServerLister(host, collate, "internal")
  }

  /** Server `fs` never answers with a structured listing, so the lister as written finds
   *  nothing in any directory. */
  lemma FsListerFindsNothing(host: ServerEnv.Host, collate: FsTree.Collate, dir: string)
    ensures FsLister(host, collate)(dir) == None
  {
    Router.OnlyInternalStructured(host, collate, JsValue.Str("fs"), JsValue.Str("list_directory"),
                                  JsValue.Obj([("path", JsValue.Str(dir))]));
  }

  /** With the lister as written, a search records the directory and leaves the
   *  suggestions, the selection and the dropdown as they were. */
  lemma FsSearchSuggestsNothing(b: Box, host: ServerEnv.Host, collate: FsTree.Collate, order: (string, string) -> int)
    requires b.shouldSearch && b.inputValue != ""
    ensures SearchEffect(b, FsLister(host, collate), order)
         == b.(searched := b.searched + [SplitQuery(b.inputValue).dir])
  {
    FsListerFindsNothing(host, collate, SplitQuery(b.inputValue).dir);
  }

  /** The intended lister returns exactly the entries the internal listing finds for the
   *  directory (`.` for an empty one), and nothing when that listing fails. */
  lemma InternalListerLists(host: ServerEnv.Host, collate: FsTree.Collate, dir: string)
    ensures var listed := FsTree.ListFilesWithTypes(host, if dir == "" then "." else dir);
      InternalLister(host, collate)(dir) == if listed.Ok? then Some(listed.value) else None
  {
    var args := JsValue.Obj([("path", JsValue.Str(dir))]);
    ListDirectoryAnswer(host, collate, dir);
    Router.InternalDispatch(host, collate, JsValue.Str("list_directory"), args);
  }

  /** The internal `list_directory` on `{path: dir}`: a structured listing of the
   *  directory, or the listing's error. */
  lemma ListDirectoryAnswer(host: ServerEnv.Host, collate: FsTree.Collate, dir: string)
    ensures var listed := FsTree.ListFilesWithTypes(host, if dir == "" then "." else dir);
      var r := InternalTools.InternalResult(host, collate, JsValue.Str("list_directory"), JsValue.Obj([("path", JsValue.Str(dir))]));
      && (listed.Ok? ==> r == Ok(InternalTools.Outcome(DirEntries(listed.value), false, true)))
      && (listed.Err? ==> r.Err?)
  {
    var args := JsValue.Obj([("path", JsValue.Str(dir))]);
    assert JsValue.Get(args, "path") == JsValue.Str(dir);
    assert InternalTools.InternalResult(host, collate, JsValue.Str("list_directory"), args)
        == InternalTools.FileResult(host, "list_directory", args);
  }

  /** With the intended lister, a search over a directory the internal listing can read
   *  makes its matching entries, sorted, the suggestions. */
  lemma InternalSearchSuggests(b: Box, host: ServerEnv.Host, collate: FsTree.Collate, order: (string, string) -> int)
    requires b.shouldSearch && b.inputValue != ""
    requires FsTree.ListFilesWithTypes(host, SplitQuery(b.inputValue).dir).Ok?
    ensures var q := SplitQuery(b.inputValue);
      SearchEffect(b, InternalLister(host, collate), order).suggestions
        == Suggestions(FsTree.ListFilesWithTypes(host, q.dir).value, q.filter, order)
  {
    var q := SplitQuery(b.inputValue);
    InternalListerLists(host, collate, q.dir);
    assert q.dir != "";
  }

  /** The selected row is none (-1) or one of the suggestions. */
  predicate Valid(b: Box) {
    -1 <= b.selectedIndex < |b.suggestions|
  }

  const InitialBox: Box := Box("", [], false, -1, true, [], [])

  /** The search effect, run after the input changed: a locked run only re-arms the
   *  lock; an empty input clears the suggestions; otherwise the query's directory is
   *  listed and its matching entries become the suggestions. New suggestions reset the
   *  selection and open the dropdown when there are any. */
  function SearchEffect(b: Box, lister: Lister, collate: (string, string) -> int): Box {
    if !b.shouldSearch then b.(shouldSearch := true)
    else if b.inputValue == "" then b.(suggestions := [], selectedIndex := -1)
    else
      var q := SplitQuery(b.inputValue);
      var b1 := b.(searched := b.searched + [q.dir]);
      match lister(q.dir)
      case None => b1
      case Some(files) =>
        var found := Suggestions(files, q.filter, collate);
        b1.(suggestions := found, selectedIndex := -1, showDropdown := b.showDropdown || |found| > 0)
  }

  /** setInputValue(val): the effect runs only when the value actually changes. */
  function Settle(b: Box, val: string, lister: Lister, collate: (string, string) -> int): Box {
    if val == b.inputValue then b else SearchEffect(b.(inputValue := val), lister, collate)
  }

  /** The setValue handle: lock the search, then set the value. */
  function OnSetValue(b: Box, val: string, lister: Lister, collate: (string, string) -> int): Box {
    Settle(b.(shouldSearch := false), val, lister, collate)
  }

  /** Typing into the input: set the value and open the dropdown. */
  function OnTyped(b: Box, val: string, lister: Lister, collate: (string, string) -> int): Box {
    Settle(b.(showDropdown := true), val, lister, collate)
  }

  /** Focusing the input reopens the dropdown when there are suggestions. */
  function OnFocus(b: Box): Box {
    if |b.suggestions| > 0 then b.(showDropdown := true) else b
  }

  /** handleItemAction: complete the input with the entry; an execution also locks the
   *  search, closes the dropdown and hands the path to onSelect. */
  function OnItem(b: Box, item: FileEntry, isExecution: bool, lister: Lister, collate: (string, string) -> int): Box {
    var fullPath := Completion(b.inputValue, item);
    if isExecution then
      Settle(b.(shouldSearch := false, showDropdown := false, selected := b.selected + [fullPath]), fullPath, lister, collate)
    else Settle(b, fullPath, lister, collate)
  }

  /** handleKeyDown. */
  function OnKey(b: Box, key: Key, lister: Lister, collate: (string, string) -> int): Box
    requires Valid(b)
  {
    var n := |b.suggestions|;
    if b.showDropdown && n > 0 && key == ArrowDown then b.(selectedIndex := NextIndex(b.selectedIndex, n))
    else if b.showDropdown && n > 0 && key == ArrowUp then b.(selectedIndex := PrevIndex(b.selectedIndex, n))
    else if b.showDropdown && n > 0 && key == Tab then
      var target := if b.selectedIndex >= 0 then b.selectedIndex else 0;
      OnItem(b, b.suggestions[target], false, lister, collate)
    else if key == Enter then
      if b.showDropdown && b.selectedIndex >= 0 then OnItem(b, b.suggestions[b.selectedIndex], true, lister, collate)
      else b.(showDropdown := false, selected := b.selected + [b.inputValue])
    else b
  }

  /** Every change of the input keeps the selection on a row or on none, and a change of
   *  the suggestions always resets it. */
  lemma SettleKeepsValid(b: Box, val: string, lister: Lister, collate: (string, string) -> int)
    requires Valid(b)
    ensures Valid(Settle(b, val, lister, collate))
    ensures var r := Settle(b, val, lister, collate);
      r.suggestions != b.suggestions ==> r.selectedIndex == -1
  {
  }

  /** Every event keeps the selection on a row or on none, and whenever the suggestions
   *  change the selection is reset. */
  lemma EventsKeepValid(b: Box, val: string, item: FileEntry, isExecution: bool, key: Key,
                        lister: Lister, collate: (string, string) -> int)
    requires Valid(b)
    ensures Valid(OnSetValue(b, val, lister, collate)) && Valid(OnTyped(b, val, lister, collate))
    ensures Valid(OnFocus(b)) && Valid(OnItem(b, item, isExecution, lister, collate))
    ensures Valid(OnKey(b, key, lister, collate))
    ensures var r := OnKey(b, key, lister, collate);
      r.suggestions != b.suggestions ==> r.selectedIndex == -1
  {
    SettleKeepsValid(b.(shouldSearch := false), val, lister, collate);
    SettleKeepsValid(b.(showDropdown := true), val, lister, collate);
    var fullPath := Completion(b.inputValue, item);
    SettleKeepsValid(b.(shouldSearch := false, showDropdown := false, selected := b.selected + [fullPath]), fullPath, lister, collate);
    SettleKeepsValid(b, fullPath, lister, collate);
    KeyKeepsValid(b, key, lister, collate);
  }

  /** A key keeps the selection on a row or on none, and resets it whenever the
   *  suggestions change. */
  lemma KeyKeepsValid(b: Box, key: Key, lister: Lister, collate: (string, string) -> int)
    requires Valid(b)
    ensures Valid(OnKey(b, key, lister, collate))
    ensures var r := OnKey(b, key, lister, collate);
      r.suggestions != b.suggestions ==> r.selectedIndex == -1
  {
    var n := |b.suggestions|;
    if n > 0 {
      NextIndexBounds(b.selectedIndex, n);
      PrevIndexBounds(b.selectedIndex, n);
    }
    if b.showDropdown && n > 0 && key == Tab {
      var target := if b.selectedIndex >= 0 then b.selectedIndex else 0;
      var full := Completion(b.inputValue, b.suggestions[target]);
      SettleKeepsValid(b, full, lister, collate);
    } else if key == Enter && b.showDropdown && b.selectedIndex >= 0 {
      var full := Completion(b.inputValue, b.suggestions[b.selectedIndex]);
      SettleKeepsValid(b.(shouldSearch := false, showDropdown := false, selected := b.selected + [full]), full, lister, collate);
    }
  }

  /** A typed change with the lock armed lists the query's directory, and a successful
   *  listing becomes the suggestions with the dropdown open and no row selected. */
  lemma TypingSearches(b: Box, val: string, lister: Lister, collate: (string, string) -> int)
    requires b.shouldSearch && val != b.inputValue && val != ""
    ensures var r := OnTyped(b, val, lister, collate);
      && r.inputValue == val && r.showDropdown && r.shouldSearch
      && r.searched == b.searched + [SplitQuery(val).dir]
      && (lister(SplitQuery(val).dir).Some? ==>
            r.suggestions == Suggestions(lister(SplitQuery(val).dir).value, SplitQuery(val).filter, collate)
            && r.selectedIndex == -1)
  {
  }

  /** Clearing the input clears the suggestions without listing anything. */
  lemma ClearingEmpties(b: Box, lister: Lister, collate: (string, string) -> int)
    requires b.shouldSearch && b.inputValue != ""
    ensures var r := OnTyped(b, "", lister, collate);
      r.suggestions == [] && r.selectedIndex == -1 && r.searched == b.searched
  {
  }

  /** A value set from outside does not search: the lock swallows the change it causes
   *  and is re-armed, so the next typed change searches again. */
  lemma SetValueSkipsSearch(b: Box, val: string, next: string, lister: Lister, collate: (string, string) -> int)
    requires val != b.inputValue
    ensures var r := OnSetValue(b, val, lister, collate);
      && r.inputValue == val && r.shouldSearch
      && r.searched == b.searched && r.suggestions == b.suggestions && r.selectedIndex == b.selectedIndex
    ensures next != val && next != "" ==>
      var r := OnTyped(OnSetValue(b, val, lister, collate), next, lister, collate);
      r.searched == b.searched + [SplitQuery(next).dir]
  {
  }

  /** Setting the value the input already holds causes no change, so no effect re-arms the
   *  lock: the next typed change is the one whose search is skipped. */
  lemma SameValueLeavesLock(b: Box, next: string, lister: Lister, collate: (string, string) -> int)
    requires next != b.inputValue
    ensures !OnSetValue(b, b.inputValue, lister, collate).shouldSearch
    ensures var r := OnTyped(OnSetValue(b, b.inputValue, lister, collate), next, lister, collate);
      r.inputValue == next && r.shouldSearch && r.searched == b.searched && r.suggestions == b.suggestions
  {
  }

  /** Enter on a selected row hands its completion to onSelect and closes the dropdown
   *  without searching; Enter with no selected row hands over the input as it is. */
  lemma EnterSelects(b: Box, lister: Lister, collate: (string, string) -> int)
    requires Valid(b)
    ensures var r := OnKey(b, Enter, lister, collate);
      && !r.showDropdown
      && r.searched == b.searched
      && (b.showDropdown && b.selectedIndex >= 0 ==>
            r.selected == b.selected + [Completion(b.inputValue, b.suggestions[b.selectedIndex])]
            && r.inputValue == Completion(b.inputValue, b.suggestions[b.selectedIndex]))
      && (!(b.showDropdown && b.selectedIndex >= 0) ==>
            r.selected == b.selected + [b.inputValue] && r.inputValue == b.inputValue)
  {
  }

  /** A settled change always takes the value and leaves onSelect alone; with the lock
   *  armed, a real change to a non-empty value lists the value's directory. */
  lemma SettleSearches(b: Box, val: string, lister: Lister, collate: (string, string) -> int)
    requires b.shouldSearch
    ensures var r := Settle(b, val, lister, collate);
      && r.inputValue == val && r.selected == b.selected
      && (val != b.inputValue && val != "" ==> r.searched == b.searched + [SplitQuery(val).dir])
  {
  }

  /** Tab completes the selected row, or the first when none is selected, and does not
   *  lock the search: completing a directory lists it next with an empty filter. */
  lemma TabCompletes(b: Box, lister: Lister, collate: (string, string) -> int)
    requires Valid(b) && b.showDropdown && |b.suggestions| > 0 && b.shouldSearch
    ensures var item := b.suggestions[if b.selectedIndex >= 0 then b.selectedIndex else 0];
      var full := Completion(b.inputValue, item);
      var r := OnKey(b, Tab, lister, collate);
      && r.inputValue == full && r.selected == b.selected
      && (full != b.inputValue && full != "" ==> r.searched == b.searched + [SplitQuery(full).dir])
      && (item.isDirectory && '/' !in item.name ==> SplitQuery(full).filter == "")
  {
    var item := b.suggestions[if b.selectedIndex >= 0 then b.selectedIndex else 0];
    var full := Completion(b.inputValue, item);
    assert OnKey(b, Tab, lister, collate) == Settle(b, full, lister, collate);
    SettleSearches(b, full, lister, collate);
    if item.isDirectory {
      CompletionOfDirectory(b.inputValue, item);
    }
  }

  /** The split the search effect performs on the input before listing. */
  method QueryOf(inputValue: string) returns (dirToSearch: string, filterTerm: string)
    ensures '/' !in filterTerm && dirToSearch != ""
    ensures Query(dirToSearch, filterTerm) == SplitQuery(inputValue)
  {
    dirToSearch := ".";
    filterTerm := "";
    var lastSlashIndex := LastIndexOf(inputValue, '/');
    if lastSlashIndex != -1 {
      dirToSearch := inputValue[..lastSlashIndex];
      filterTerm := inputValue[lastSlashIndex + 1..];
    } else {
      filterTerm := inputValue;
    }
    if dirToSearch == "" {
      dirToSearch := ".";
    }
  }

  /** The component as it runs: its state variables and the lock flag it keeps in a ref. */
  class SearchBox {
    var inputValue: string
    var suggestions: seq<FileEntry>
    var showDropdown: bool
    var selectedIndex: int
    var shouldSearch: bool
    /** The paths handed to onSelect, in order. */
    var selected: seq<string>
    /** The directories listed by searches, in order. */
    var searched: seq<string>

    function Snapshot(): Box
      reads this
    {
      Box(inputValue, suggestions, showDropdown, selectedIndex, shouldSearch, selected, searched)
    }

    constructor ()
      ensures Snapshot() == InitialBox
    {
      inputValue := "";
      suggestions := [];
      showDropdown := false;
      selectedIndex := -1;
      shouldSearch := true;
      selected := [];
      searched := [];
    }

    /** The value handle's getValue. */
    method GetValue() returns (v: string)
      ensures v == inputValue
    {
      v := inputValue;
    }

    /** The value handle's setValue. */
    method SetValue(val: string, lister: Lister, collate: (string, string) -> int)
      modifies this
      ensures Snapshot() == OnSetValue(old(Snapshot()), val, lister, collate)
    {
      shouldSearch := false;
      SetInput(val, lister, collate);
    }

    /** The input's onChange. */
    method InputChanged(val: string, lister: Lister, collate: (string, string) -> int)
      modifies this
      ensures Snapshot() == OnTyped(old(Snapshot()), val, lister, collate)
    {
      showDropdown := true;
      SetInput(val, lister, collate);
    }

    /** The input's onFocus. */
    method Focus()
      modifies this
      ensures Snapshot() == OnFocus(old(Snapshot()))
    {
      if |suggestions| > 0 {
        showDropdown := true;
      }
    }

    /** setInputValue, followed by the search effect when the value changed. */
    method SetInput(val: string, lister: Lister, collate: (string, string) -> int)
      modifies this
      ensures Snapshot() == Settle(old(Snapshot()), val, lister, collate)
    {
      if val == inputValue {
        return;
      }
      inputValue := val;
      RunSearchEffect(lister, collate);
    }

    /** The effect that watches the input. */
    method RunSearchEffect(lister: Lister, collate: (string, string) -> int)
      modifies this
      ensures Snapshot() == SearchEffect(old(Snapshot()), lister, collate)
    {
      if !shouldSearch {
        shouldSearch := true;
        return;
      }
      if inputValue == "" {
        suggestions := [];
        selectedIndex := -1;
        return;
      }
      var dirToSearch, filterTerm := QueryOf(inputValue);
      searched := searched + [dirToSearch];
      var listing := lister(dirToSearch);
      if listing.Some? {
        var filtered := Suggestions(listing.value, filterTerm, collate);
        suggestions := filtered;
        selectedIndex := -1;
        if |filtered| > 0 {
          showDropdown := true;
        }
      }
    }

    /** handleItemAction. */
    method ItemAction(item: FileEntry, isExecution: bool, lister: Lister, collate: (string, string) -> int)
      modifies this
      ensures Snapshot() == OnItem(old(Snapshot()), item, isExecution, lister, collate)
    {
      var lastSlashIndex := LastIndexOf(inputValue, '/');
      var prefix := if lastSlashIndex != -1 then inputValue[..lastSlashIndex + 1] else "";
      var suffix := item.name + (if item.isDirectory then "/" else "");
      var fullPath := prefix + suffix;
      assert fullPath == Completion(inputValue, item);
      if isExecution {
        shouldSearch := false;
        showDropdown := false;
        selected := selected + [fullPath];
      }
      SetInput(fullPath, lister, collate);
    }

    /** handleKeyDown. */
    method KeyDown(key: Key, lister: Lister, collate: (string, string) -> int)
      requires Valid(Snapshot())
      modifies this
      ensures Snapshot() == OnKey(old(Snapshot()), key, lister, collate)
    {
      if showDropdown && |suggestions| > 0 {
        if key == ArrowDown {
          selectedIndex := NextIndex(selectedIndex, |suggestions|);
          return;
        }
        if key == ArrowUp {
          selectedIndex := PrevIndex(selectedIndex, |suggestions|);
          return;
        }
        if key == Tab {
          var targetIndex := if selectedIndex >= 0 then selectedIndex else 0;
          ItemAction(suggestions[targetIndex], false, lister, collate);
          return;
        }
      }
      if key == Enter {
        if showDropdown && selectedIndex >= 0 {
          ItemAction(suggestions[selectedIndex], true, lister, collate);
        } else {
          showDropdown := false;
          selected := selected + [inputValue];
        }
      }
    }
  }
}
