/**
 * The suggested commands under the input: the catalog of every tool, then one catalog
 * command per connected server.
 */
module ServerShortcuts {
  import opened Wrappers
  import opened JsText
  import opened JsValue
  import opened ServerCommand
  import opened Collections

  const ListAll: string := "mcp:internal:list"

  /** The arguments of a server's catalog command. */
  function ServerArgs(s: string): string {
    "{\"server\":\"" + s + "\"}"
  }

  /** The catalog command for one server. */
  function ShortcutFor(s: string): string {
    ListAll + "(" + ServerArgs(s) + ")"
  }

  /** A server gets a shortcut when its name is non-empty and not `all`. */
  predicate Listed(s: string) { s != "" && s != "all" }

  /** The shortcuts for the servers of a list, in their order. */
  function Extra(servers: seq<string>): seq<string> {
    if servers == [] then []
    else
      var s := servers[|servers| - 1];
      Extra(servers[..|servers| - 1]) + (if Listed(s) then [ShortcutFor(s)] else [])
  }

  /** The command list the component renders. */
  function Shortcuts(servers: seq<string>): seq<string> {
    [ListAll] + Extra(servers)
  }

  /** The number of servers that get a shortcut. */
  function ListedCount(servers: seq<string>): nat {
    if servers == [] then 0
    else ListedCount(servers[..|servers| - 1]) + (if Listed(servers[|servers| - 1]) then 1 else 0)
  }

  /** Building the list: the catalog command, then one push per listed server. A null
   *  result (no commands) is never returned. */
  method BuildShortcuts(servers: seq<string>) returns (shown: Option<seq<string>>)
    ensures shown == Some(Shortcuts(servers))
  {
    var commands := [ListAll];
    for k := 0 to |servers|
      invariant commands == [ListAll] + Extra(servers[..k])
    {
      var s := servers[k];
      TakeSnoc(servers, k);
      if s != "" && s != "all" {
        commands := commands + [ShortcutFor(s)];
      }
    }
    assert servers[..|servers|] == servers;
    if |commands| == 0 {
      return None;
    }
    return Some(commands);
  }

  /** The list opens with the catalog of every tool and has one more entry per listed
   *  server; every other entry is the shortcut of a listed server. */
  lemma {:induction false} ExtraContents(servers: seq<string>)
    ensures |Extra(servers)| == ListedCount(servers)
    ensures forall c :: c in Extra(servers) <==> exists s :: s in servers && Listed(s) && c == ShortcutFor(s)
  {
    if servers != [] {
      var init := servers[..|servers| - 1];
      var last := servers[|servers| - 1];
      ExtraContents(init);
      assert servers == init + [last];
      forall c ensures c in Extra(servers) <==> exists s :: s in servers && Listed(s) && c == ShortcutFor(s) {
        if c in Extra(servers) && c !in Extra(init) {
          assert Listed(last) && c == ShortcutFor(last);
        }
        if exists s :: s in servers && Listed(s) && c == ShortcutFor(s) {
          var s :| s in servers && Listed(s) && c == ShortcutFor(s);
          if s != last {
            assert s in init;
          }
        }
      }
    }
  }

  /** The list starts with the catalog command and is never empty. */
  lemma ShortcutsShape(servers: seq<string>)
    ensures Shortcuts(servers)[0] == ListAll
    ensures |Shortcuts(servers)| == 1 + ListedCount(servers)
  {
    ExtraContents(servers);
  }

  /** The shortcuts keep the servers' order: they split over any cut of the list. */
  lemma {:induction false} ExtraSplit(a: seq<string>, b: seq<string>)
    ensures Extra(a + b) == Extra(a) + Extra(b)
  {
    if b == [] {
      assert a + b == a;
    } else {
      var init := b[..|b| - 1];
      assert (a + b)[..|a + b| - 1] == a + init;
      assert (a + b)[|a + b| - 1] == b[|b| - 1];
      ExtraSplit(a, init);
    }
  }

  /** Servers named "" or "all" contribute nothing; any other contributes its shortcut. */
  lemma ExtraOfOne(s: string)
    ensures Extra([s]) == if Listed(s) then [ShortcutFor(s)] else []
  {
    assert [s][..0] == [];
  }

  /** The catalog command reads back as internal/list with no arguments. */
  lemma ListAllParses(parseJson: JsonParser)
    ensures ParseMcpCommand(ListAll, parseJson) == Ok(McpCommand("internal", "list", EmptyObject))
  {
    assert ListAll == Render(CommandParts("internal", "list", None));
    ParseRendered("internal", "list", parseJson);
  }

  /** A server's shortcut reads back as internal/list with its JSON arguments, whenever
   *  the name has no line break. */
  lemma ShortcutParses(s: string, parseJson: JsonParser)
    requires NoLineTerminator(s) && parseJson(ServerArgs(s)).Some?
    ensures ParseMcpCommand(ShortcutFor(s), parseJson) == Ok(McpCommand("internal", "list", parseJson(ServerArgs(s)).value))
  {
    var a := ServerArgs(s);
    assert ShortcutFor(s) == Render(CommandParts("internal", "list", Some(a)));
    forall i | 0 <= i < |a| ensures !IsLineTerminator(a[i]) {
      if 11 <= i < 11 + |s| {
        assert a[i] == s[i - 11];
      }
    }
    assert !IsSpace(a[0]);
    ParseRenderedWithArgs("internal", "list", a, parseJson);
  }
}
