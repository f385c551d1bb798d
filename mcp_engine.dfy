/**
 * The extension's engine hook: its state, the single-command run and the fail-fast
 * batch run over the pending commands. The server is reached through an oracle that
 * answers each request with a response body or with the error the fetch threw.
 */
module McpEngine {
  import opened Wrappers
  import opened JsText
  import opened JsValue
  import opened Protocol
  import opened Collections
  import opened Formatter
  import opened CommandParser

  /** What invokeAPI yields: the response body, or the message of what it threw. */
  datatype Answer = Answer(response: Response) | Thrown(message: string)

  /** The server as one batch sees it: the answer to the request sent for command i. */
  type Invoker = (nat, Request) -> Answer

  const FailedBanner: string := "\U{274C} EXECUTION FAILED:\n"

  /** What separates two sections of a batch report. */
  function Separator(): string {
    "\n" + Repeat("=", 40) + "\n\n"
  }

  /** The request a batch sends for a command. */
  function BatchRequest(cmd: ParsedCommand): Request {
    Request(Str(cmd.server), Str(cmd.tool), cmd.args, Undefined)
  }

  /** The report section of a command that succeeded; `compact` is JSON.stringify. */
  function SuccessSection(cmd: ParsedCommand, output: string, compact: Stringify): string {
    "### [CMD] " + cmd.tool + " (Args: " + compact(cmd.args) + ")\n" + output + "\n"
  }

  /** The report section of the command that failed. */
  function FailureSection(cmd: ParsedCommand, error: string): string {
    "### [CMD FAILED] " + cmd.tool + "\nERROR: " + error + "\n"
  }

  /** How a batch run stands: still going, stopped by a failure response, or stopped by
   *  an exception (from the fetch or from formatting). */
  datatype Stop = Running | Failed(index: nat) | Threw(message: string)

  /** The observable course of a run: the report sections, the progress shown, how it
   *  stands, and each request sent with the progress shown when it was sent. */
  datatype BatchState = BatchState(sections: seq<string>, progress: nat, stop: Stop, sent: seq<(nat, Request)>)

  /** One iteration of the batch loop for command i. */
  function BatchStep(s: BatchState, i: nat, cmd: ParsedCommand, invoke: Invoker, pretty: Stringify, compact: Stringify): BatchState {
    var req := BatchRequest(cmd);
    var sent := s.sent + [(i, req)];
    match invoke(i, req)
    case Thrown(m) => BatchState(s.sections, i, Threw(m), sent)
    case Answer(Failure(e)) => BatchState(s.sections + [FailureSection(cmd, e)], i, Failed(i), sent)
    case Answer(Success(data, _, _)) =>
      match FormatResult(cmd.tool, cmd.args, data, pretty)
      case Err(m) => BatchState(s.sections, i, Threw(m), sent)
      case Ok(out) => BatchState(s.sections + [SuccessSection(cmd, out, compact)], i + 1, Running, sent)
  }

  /** The state after the loop has been entered k times (or stopped earlier). */
  function Steps(cmds: seq<ParsedCommand>, k: nat, invoke: Invoker, pretty: Stringify, compact: Stringify): BatchState
    requires k <= |cmds|
  {
    if k == 0 then BatchState([], 0, Running, [])
    else
      var s := Steps(cmds, k - 1, invoke, pretty, compact);
      if s.stop.Running? then BatchStep(s, k - 1, cmds[k - 1], invoke, pretty, compact) else s
  }

  /** The report: the sections joined by a rule of forty `=`. */
  function Report(sections: seq<string>): string {
    Join(sections, Separator())
  }

  /** Command j of a run answers with a success whose data formats. */
  predicate Succeeds(cmds: seq<ParsedCommand>, j: nat, invoke: Invoker, pretty: Stringify)
    requires j < |cmds|
  {
    var a := invoke(j, BatchRequest(cmds[j]));
    a.Answer? && a.response.Success? && FormatResult(cmds[j].tool, cmds[j].args, a.response.data, pretty).Ok?
  }

  /** The section of a command known to succeed. */
  function SectionOf(cmds: seq<ParsedCommand>, j: nat, invoke: Invoker, pretty: Stringify, compact: Stringify): string
    requires j < |cmds| && Succeeds(cmds, j, invoke, pretty)
  {
    var cmd := cmds[j];
    SuccessSection(cmd, FormatResult(cmd.tool, cmd.args, invoke(j, BatchRequest(cmd)).response.data, pretty).value, compact)
  }

  /** While every command succeeds, the run sends the commands in order, each with the
   *  progress showing its own index, gains one section per command, and shows k. */
  lemma {:induction false} AllSucceed(cmds: seq<ParsedCommand>, k: nat, invoke: Invoker, pretty: Stringify, compact: Stringify)
    requires k <= |cmds|
    requires forall j :: 0 <= j < k ==> Succeeds(cmds, j, invoke, pretty)
    ensures var s := Steps(cmds, k, invoke, pretty, compact);
      && s.stop == Running && s.progress == k
      && |s.sections| == k && (forall j :: 0 <= j < k ==> s.sections[j] == SectionOf(cmds, j, invoke, pretty, compact))
      && |s.sent| == k && (forall j :: 0 <= j < k ==> s.sent[j] == (j, BatchRequest(cmds[j])))
  {
    if k > 0 {
      AllSucceed(cmds, k - 1, invoke, pretty, compact);
      assert Succeeds(cmds, k - 1, invoke, pretty);
    }
  }

  /** Once the run has stopped, later iterations change nothing. */
  lemma {:induction false} StaysStopped(cmds: seq<ParsedCommand>, k: nat, m: nat, invoke: Invoker, pretty: Stringify, compact: Stringify)
    requires k <= m <= |cmds|
    requires !Steps(cmds, k, invoke, pretty, compact).stop.Running?
    ensures Steps(cmds, m, invoke, pretty, compact) == Steps(cmds, k, invoke, pretty, compact)
    decreases m - k
  {
    if m > k {
      StaysStopped(cmds, k, m - 1, invoke, pretty, compact);
    }
  }

  /** The first failure response, at k, stops the run: k + 1 requests were sent, in order,
   *  the report has the k sections before it and the failure's own, progress stays at k
   *  and the run is marked failed at k. */
  lemma FirstFailure(cmds: seq<ParsedCommand>, k: nat, error: string, invoke: Invoker, pretty: Stringify, compact: Stringify)
    requires k < |cmds|
    requires forall j :: 0 <= j < k ==> Succeeds(cmds, j, invoke, pretty)
    requires invoke(k, BatchRequest(cmds[k])) == Answer(Failure(error))
    ensures var s := Steps(cmds, |cmds|, invoke, pretty, compact);
      && s.stop == Failed(k) && s.progress == k
      && |s.sections| == k + 1 && s.sections[k] == FailureSection(cmds[k], error)
      && (forall j :: 0 <= j < k ==> s.sections[j] == SectionOf(cmds, j, invoke, pretty, compact))
      && |s.sent| == k + 1 && (forall j :: 0 <= j <= k ==> s.sent[j] == (j, BatchRequest(cmds[j])))
  {
    FailedAt(cmds, k, error, invoke, pretty, compact);
    StaysStopped(cmds, k + 1, |cmds|, invoke, pretty, compact);
  }

  /** The state right after the first failure response. */
  lemma FailedAt(cmds: seq<ParsedCommand>, k: nat, error: string, invoke: Invoker, pretty: Stringify, compact: Stringify)
    requires k < |cmds|
    requires forall j :: 0 <= j < k ==> Succeeds(cmds, j, invoke, pretty)
    requires invoke(k, BatchRequest(cmds[k])) == Answer(Failure(error))
    ensures var s := Steps(cmds, k + 1, invoke, pretty, compact);
      && s.stop == Failed(k) && s.progress == k
      && |s.sections| == k + 1 && s.sections[k] == FailureSection(cmds[k], error)
      && (forall j :: 0 <= j < k ==> s.sections[j] == SectionOf(cmds, j, invoke, pretty, compact))
      && |s.sent| == k + 1 && (forall j :: 0 <= j <= k ==> s.sent[j] == (j, BatchRequest(cmds[j])))
  {
    AllSucceed(cmds, k, invoke, pretty, compact);
    FailureStep(cmds, k, error, invoke, pretty, compact);
  }

  /** A failure response to a running iteration adds its section and stops the run. */
  lemma FailureStep(cmds: seq<ParsedCommand>, k: nat, error: string, invoke: Invoker, pretty: Stringify, compact: Stringify)
    requires k < |cmds| && Steps(cmds, k, invoke, pretty, compact).stop.Running?
    requires invoke(k, BatchRequest(cmds[k])) == Answer(Failure(error))
    ensures var s := Steps(cmds, k, invoke, pretty, compact);
      Steps(cmds, k + 1, invoke, pretty, compact)
        == BatchState(s.sections + [FailureSection(cmds[k], error)], k, Failed(k), s.sent + [(k, BatchRequest(cmds[k]))])
  {
  }

  /** An exception at k stops the run the same way, with no section for k and no
   *  failure index. */
  lemma ExceptionStops(cmds: seq<ParsedCommand>, k: nat, message: string, invoke: Invoker, pretty: Stringify, compact: Stringify)
    requires k < |cmds|
    requires forall j :: 0 <= j < k ==> Succeeds(cmds, j, invoke, pretty)
    requires invoke(k, BatchRequest(cmds[k])) == Thrown(message)
    ensures var s := Steps(cmds, |cmds|, invoke, pretty, compact);
      && s.stop == Threw(message) && s.progress == k && |s.sections| == k && |s.sent| == k + 1
  {
    AllSucceed(cmds, k, invoke, pretty, compact);
    StaysStopped(cmds, k + 1, |cmds|, invoke, pretty, compact);
  }

  /** The payload of a single run: the command string alone, or the three fields (null
   *  where absent). */
  function SingleRequest(serverName: Option<string>, toolName: Option<string>, args: Value, commandStr: string): Request {
    if commandStr != "" then Request(Undefined, Undefined, Undefined, Str(commandStr))
    else Request(
      if serverName.Some? then Str(serverName.value) else Null,
      if toolName.Some? then Str(toolName.value) else Null,
      args, Undefined)
  }

  /** The server list after a tool list arrives: the union of the old list and the
   *  catalog's servers, each once, in the default sort order. */
  function MergeServers(prev: seq<string>, tools: seq<ToolInfo>): seq<string> {
    Sort(Dedup(prev + ServersOf(tools)), StrLessFn())
  }

  /** The names before deduplication are the old names and the catalog's servers. */
  lemma MergedNames(prev: seq<string>, tools: seq<ToolInfo>, x: string)
    ensures x in prev + ServersOf(tools) <==> x in prev || exists t :: t in tools && t.server == x
  {
    var all := prev + ServersOf(tools);
    if x in all && x !in prev {
      var m :| 0 <= m < |all| && all[m] == x;
      assert tools[m - |prev|] in tools;
    }
    if exists t :: t in tools && t.server == x {
      var t :| t in tools && t.server == x;
      var i :| 0 <= i < |tools| && tools[i] == t;
      assert all[|prev| + i] == x;
    }
  }

  /** Deduplicating and sorting keep exactly the names they are given. */
  lemma SortedDedupMembers(all: seq<string>, x: string)
    ensures x in Sort(Dedup(all), StrLessFn()) <==> x in all
  {
    var d := Dedup(all);
    var r := Sort(d, StrLessFn());
    assert x in r <==> x in multiset(r);
    assert x in d <==> x in multiset(d);
    if x in all {
      var m :| 0 <= m < |all| && all[m] == x;
    }
    if x in d {
      var i :| 0 <= i < |d| && d[i] == x;
    }
  }

  /** The merged list is sorted, has no duplicates, and holds exactly the old names and
   *  the catalog's servers. */
  lemma MergeServersSpec(prev: seq<string>, tools: seq<ToolInfo>)
    ensures var r := MergeServers(prev, tools);
      && SortedBy(r, StrLessFn())
      && Distinct(r)
      && forall x :: x in r <==> x in prev || exists t :: t in tools && t.server == x
  {
    var d := Dedup(prev + ServersOf(tools));
    StrLessIsStrict();
    SortSorted(d, StrLessFn());
    DistinctPermutation(d, MergeServers(prev, tools));
    forall x ensures x in MergeServers(prev, tools) <==> x in prev || exists t :: t in tools && t.server == x {
      SortedDedupMembers(prev + ServersOf(tools), x);
      MergedNames(prev, tools, x);
    }
  }

  /** The preview and the clipboard text a single run ends with (None: the clipboard is
   *  not written). A failure response shows the banner and the error; a thrown fetch or
   *  formatting error leaves the cleared preview. */
  function SingleOutcome(toolName: Option<string>, args: Value, promptPrefix: string, answer: Answer, pretty: Stringify): (string, Option<string>) {
    match answer
    case Thrown(_) => ("", None)
    case Answer(Failure(e)) => (FailedBanner + e, None)
    case Answer(Success(data, _, _)) =>
      match FormatResult(if toolName.Some? then toolName.value else "", args, data, pretty)
      case Err(_) => ("", None)
      case Ok(content) => (promptPrefix + content, Some(promptPrefix + content))
  }

  /** A successful run shows and copies the prefix followed by the formatted result; a
   *  failure response is shown with the banner and never copied. */
  lemma SingleOutcomes(toolName: Option<string>, args: Value, promptPrefix: string, answer: Answer, pretty: Stringify)
    ensures var (preview, copied) := SingleOutcome(toolName, args, promptPrefix, answer, pretty);
      && (answer.Answer? && answer.response.Failure? ==> preview == FailedBanner + answer.response.error && copied.None?)
      && (copied.Some? ==> copied.value == preview && StartsWith(preview, promptPrefix))
      && (answer.Thrown? ==> preview == "" && copied.None?)
  {
  }

  /** How executeCommand handles the server's answer: the preview, the text it copies (None:
   *  the clipboard is left alone) and the server list, merged only when a tool list arrives. */
  method Respond(toolName: Option<string>, args: Value, promptPrefix: string, answer: Answer, pretty: Stringify,
                 servers: seq<string>)
    returns (preview: string, copied: Option<string>, servers': seq<string>)
    ensures (preview, copied) == SingleOutcome(toolName, args, promptPrefix, answer, pretty)
    ensures servers' ==
      (if answer.Answer? && answer.response.Success? && answer.response.isToolList && answer.response.data.Catalog?
       then MergeServers(servers, answer.response.data.tools)
       else servers)
  {
    preview, copied, servers' := "", None, servers;
    match answer {
      case Thrown(_) =>
      case Answer(json) =>
        if json.Success? {
          if json.isToolList && json.data.Catalog? {
            var newServers := ServersOf(json.data.tools);
            servers' := Sort(Dedup(servers + newServers), StrLessFn());
          }
          var contentStr := FormatResult(if toolName.Some? then toolName.value else "", args, json.data, pretty);
          if contentStr.Ok? {
            var finalResult := if promptPrefix != "" then promptPrefix + contentStr.value else contentStr.value;
            assert finalResult == promptPrefix + contentStr.value;
            preview, copied := finalResult, Some(finalResult);
          }
        } else {
          preview := FailedBanner + json.error;
        }
    }
  }

  /** The hook's state, with the clipboard and the requests sent as fields of their own. */
  class Engine {
    var loading: bool
    var resultPreview: string
    var availableServers: seq<string>
    var pendingCommands: seq<ParsedCommand>
    var executionProgress: nat
    var failedIndex: Option<nat>
    /** The text last written to the clipboard. */
    var clipboard: string
    /** Every request sent, with the progress shown when it was sent. */
    var dispatched: seq<(nat, Request)>

    /** The hook's initial state. */
    constructor ()
      ensures !loading && resultPreview == "" && availableServers == [] && pendingCommands == []
      ensures executionProgress == 0 && failedIndex == None && clipboard == "" && dispatched == []
    {
      loading := false;
      resultPreview := "";
      availableServers := [];
      pendingCommands := [];
      executionProgress := 0;
      failedIndex := None;
      clipboard := "";
      dispatched := [];
    }

    /** executeCommand with the server's answer given. */
    method ExecuteCommand(serverName: Option<string>, toolName: Option<string>, args: Value,
                          promptPrefix: string, commandStr: string, answer: Answer, pretty: Stringify)
      modifies this
      ensures dispatched == old(dispatched) + [(old(executionProgress), SingleRequest(serverName, toolName, args, commandStr))]
      ensures var outcome := SingleOutcome(toolName, args, promptPrefix, answer, pretty);
        && resultPreview == outcome.0
        && clipboard == (if outcome.1.Some? then outcome.1.value else old(clipboard))
      ensures availableServers ==
        (if answer.Answer? && answer.response.Success? && answer.response.isToolList && answer.response.data.Catalog?
         then MergeServers(old(availableServers), answer.response.data.tools)
         else old(availableServers))
      ensures !loading
      ensures pendingCommands == old(pendingCommands) && executionProgress == old(executionProgress)
      ensures failedIndex == old(failedIndex)
    {
      loading := true;
      resultPreview := "";
      var payload := if commandStr != "" then Request(Undefined, Undefined, Undefined, Str(commandStr))
        else Request(if serverName.Some? then Str(serverName.value) else Null,
                     if toolName.Some? then Str(toolName.value) else Null, args, Undefined);
      assert payload == SingleRequest(serverName, toolName, args, commandStr);
      dispatched := dispatched + [(executionProgress, payload)];
      var prev := availableServers;
      var preview, copied, servers := Respond(toolName, args, promptPrefix, answer, pretty, prev);
      availableServers := servers;
      resultPreview := preview;
      if copied.Some? {
        clipboard := copied.value;
      }
      loading := false;
    }

    /** One pass of the batch loop: show progress i, send command i, then add its section
     *  and advance the progress, or record the failure, or stop on an exception. */
    method RunOne(i: nat, cmd: ParsedCommand, invoke: Invoker, pretty: Stringify, compact: Stringify,
                  results: seq<string>, sent: seq<(nat, Request)>)
      returns (results': seq<string>, stop: Stop, sent': seq<(nat, Request)>)
      modifies this
      requires failedIndex == None
      ensures BatchState(results', executionProgress, stop, sent')
        == BatchStep(BatchState(results, old(executionProgress), Running, sent), i, cmd, invoke, pretty, compact)
      ensures failedIndex == (if stop.Failed? then Some(stop.index) else None)
      ensures dispatched == old(dispatched) + [(i, BatchRequest(cmd))]
      ensures resultPreview == old(resultPreview) && clipboard == old(clipboard)
      ensures pendingCommands == old(pendingCommands) && availableServers == old(availableServers)
      ensures loading == old(loading)
    {
      executionProgress := i;
      var req := Request(Str(cmd.server), Str(cmd.tool), cmd.args, Undefined);
      sent' := sent + [(executionProgress, req)];
      dispatched := dispatched + [(executionProgress, req)];
      results' := results;
      stop := Running;
      var json := invoke(i, req);
      if json.Thrown? {
        stop := Threw(json.message);
      } else if json.response.Success? {
        var output := FormatResult(cmd.tool, cmd.args, json.response.data, pretty);
        if output.Err? {
          stop := Threw(output.error);
        } else {
          results' := results + ["### [CMD] " + cmd.tool + " (Args: " + compact(cmd.args) + ")\n" + output.value + "\n"];
          executionProgress := i + 1;
        }
      } else {
        results' := results + ["### [CMD FAILED] " + cmd.tool + "\nERROR: " + json.response.error + "\n"];
        failedIndex := Some(i);
        stop := Failed(i);
      }
    }

    /** The batch loop: run the commands in order until one fails or throws. */
    method RunAll(cmds: seq<ParsedCommand>, invoke: Invoker, pretty: Stringify, compact: Stringify)
      returns (results: seq<string>, stop: Stop, sent: seq<(nat, Request)>)
      modifies this
      requires failedIndex == None && executionProgress == 0
      ensures Steps(cmds, |cmds|, invoke, pretty, compact) == BatchState(results, executionProgress, stop, sent)
      ensures failedIndex == (if stop.Failed? then Some(stop.index) else None)
      ensures dispatched == old(dispatched) + sent
      ensures resultPreview == old(resultPreview) && clipboard == old(clipboard)
      ensures pendingCommands == old(pendingCommands) && availableServers == old(availableServers)
      ensures loading == old(loading)
    {
      results, stop, sent := [], Running, [];
      var i := 0;
      while i < |cmds| && stop.Running?
        invariant 0 <= i <= |cmds|
        invariant Steps(cmds, i, invoke, pretty, compact) == BatchState(results, executionProgress, stop, sent)
        invariant failedIndex == (if stop.Failed? then Some(stop.index) else None)
        invariant dispatched == old(dispatched) + sent
        invariant resultPreview == old(resultPreview) && clipboard == old(clipboard)
        invariant pendingCommands == old(pendingCommands) && availableServers == old(availableServers)
        invariant loading == old(loading)
      {
        results, stop, sent := RunOne(i, cmds[i], invoke, pretty, compact, results, sent);
        i := i + 1;
      }
      if i < |cmds| {
        StaysStopped(cmds, i, |cmds|, invoke, pretty, compact);
      }
    }

    /** executeBatch: the fail-fast loop, then the report; the pending list is cleared by
     *  the failedIndex value the run started with. */
    method ExecuteBatch(invoke: Invoker, pretty: Stringify, compact: Stringify)
      modifies this
      ensures var s := Steps(old(pendingCommands), |old(pendingCommands)|, invoke, pretty, compact);
        && executionProgress == s.progress
        && failedIndex == (if s.stop.Failed? then Some(s.stop.index) else None)
        && dispatched == old(dispatched) + s.sent
        && (s.stop.Threw? ==>
              resultPreview == old(resultPreview) && clipboard == old(clipboard)
              && pendingCommands == old(pendingCommands))
        && (!s.stop.Threw? ==>
              resultPreview == Report(s.sections) && clipboard == Report(s.sections)
              && pendingCommands == (if old(failedIndex).None? then [] else old(pendingCommands)))
      ensures !loading && availableServers == old(availableServers)
    {
      loading := true;
      executionProgress := 0;
      var startFailedIndex := failedIndex;
      failedIndex := None;
      var cmds := pendingCommands;
      var results, stop, sent := RunAll(cmds, invoke, pretty, compact);

      if !stop.Threw? {
        var finalReport := Join(results, "\n" + Repeat("=", 40) + "\n\n");
        resultPreview := finalReport;
        clipboard := finalReport;
        if startFailedIndex.None? {
          pendingCommands := [];
        }
      }
      loading := false;
    }
  }
}
