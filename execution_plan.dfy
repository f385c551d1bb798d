/**
 * The execution plan panel: the icon each command row shows while a batch is prepared,
 * run, or stopped by a failure, and which of its buttons are offered.
 */
module ExecutionPlan {
  import opened Wrappers
  import opened JsText
  import opened CommandParser

  /** What a command does, by its icon: unusable, possibly writing, or reading. */
  datatype Kind = Invalid | Warning | Read

  /** The status icon of a row. */
  datatype Status = Failed | Running | Done | Icon(kind: Kind)

  /** getIcon: invalid arguments first, then a tool that writes or diffs. */
  function KindOf(cmd: ParsedCommand): Kind {
    if !cmd.isValid then Invalid
    else if Contains(cmd.tool, "write") || cmd.tool == "diff" then Warning
    else Read
  }

  /** getStatusIcon for row `idx`, given the batch's progress and failed row. */
  function StatusOf(idx: nat, progress: nat, isExecuting: bool, failedIndex: Option<nat>, cmd: ParsedCommand): Status {
    if failedIndex == Some(idx) then Failed
    else if idx > progress then Icon(KindOf(cmd))
    else if idx == progress && isExecuting && failedIndex.None? then Running
    else if idx < progress then Done
    else Icon(KindOf(cmd))
  }

  /** The delete button of every row is offered only while no batch runs. */
  predicate RemoveShown(isExecuting: bool) { !isExecuting }

  /** Cancel (or Close, after a failure) is disabled only while a batch runs unfailed. */
  predicate CancelDisabled(isExecuting: bool, failedIndex: Option<nat>) {
    isExecuting && failedIndex.None?
  }

  /** The Run button exists only while no row has failed. */
  predicate RunShown(failedIndex: Option<nat>) { failedIndex.None? }

  /** Run is disabled while executing or when any command's arguments did not evaluate. */
  predicate RunDisabled(isExecuting: bool, commands: seq<ParsedCommand>) {
    isExecuting || exists i :: 0 <= i < |commands| && !commands[i].isValid
  }

  /** `includes` finds a word wherever it stands in the tool name. */
  lemma {:induction false} ContainsInfix(p: string, w: string, s: string)
    ensures Contains(p + w + s, w)
  {
    assert (p + w + s)[..|w|] == w ==> StartsWith(p + w + s, w);
    if p != [] {
      ContainsInfix(p[1..], w, s);
      assert (p + w + s)[1..] == p[1..] + w + s;
    } else {
      assert p + w + s == w + s;
      assert (w + s)[..|w|] == w;
    }
  }

  /** A valid command whose tool name contains `write` anywhere, or is `diff`, is marked
   *  as a warning; an invalid one is always marked invalid. */
  lemma WritingToolsWarn(cmd: ParsedCommand, p: string, s: string)
    ensures !cmd.isValid ==> KindOf(cmd) == Invalid
    ensures cmd.isValid && cmd.tool == p + "write" + s ==> KindOf(cmd) == Warning
    ensures cmd.isValid && cmd.tool == "diff" ==> KindOf(cmd) == Warning
    ensures KindOf(cmd) == Read ==> cmd.isValid && cmd.tool != "diff" && !Contains(cmd.tool, "write")
  {
    ContainsInfix(p, "write", s);
  }

  /** The failed row shows as failed whatever the progress, and no other row does. */
  lemma FailedFirst(idx: nat, progress: nat, isExecuting: bool, failedIndex: Option<nat>, cmd: ParsedCommand)
    ensures StatusOf(idx, progress, isExecuting, failedIndex, cmd) == Failed <==> failedIndex == Some(idx)
  {
  }

  /** A row spins exactly when it is the current one of a batch that runs unfailed, so at
   *  most one row spins at a time. */
  lemma RunningRow(idx: nat, progress: nat, isExecuting: bool, failedIndex: Option<nat>, cmd: ParsedCommand)
    ensures StatusOf(idx, progress, isExecuting, failedIndex, cmd) == Running
      <==> idx == progress && isExecuting && failedIndex.None?
  {
  }

  /** A row is checked exactly when it lies before the progress and has not failed; rows
   *  after the progress show their kind. */
  lemma DoneRows(idx: nat, progress: nat, isExecuting: bool, failedIndex: Option<nat>, cmd: ParsedCommand)
    ensures StatusOf(idx, progress, isExecuting, failedIndex, cmd) == Done
      <==> idx < progress && failedIndex != Some(idx)
    ensures idx > progress && failedIndex != Some(idx) ==>
      StatusOf(idx, progress, isExecuting, failedIndex, cmd) == Icon(KindOf(cmd))
  {
  }

  /** The panel after a batch stopped at row k (progress k, failed row k): the rows before
   *  are checked, row k is failed, and the rows after show their kind. */
  lemma StoppedBatch(commands: seq<ParsedCommand>, k: nat, isExecuting: bool)
    requires k < |commands|
    ensures forall idx :: 0 <= idx < |commands| ==>
      StatusOf(idx, k, isExecuting, Some(k), commands[idx])
        == (if idx < k then Done else if idx == k then Failed else Icon(KindOf(commands[idx])))
    ensures !RunShown(Some(k)) && !CancelDisabled(isExecuting, Some(k))
  {
  }

  /** While a batch runs unfailed at row k: the earlier rows are checked, row k spins, the
   *  later rows show their kind, and nothing can be run, cancelled or removed. */
  lemma RunningBatch(commands: seq<ParsedCommand>, k: nat)
    requires k < |commands|
    ensures forall idx :: 0 <= idx < |commands| ==>
      StatusOf(idx, k, true, None, commands[idx])
        == (if idx < k then Done else if idx == k then Running else Icon(KindOf(commands[idx])))
    ensures RunShown(None) && RunDisabled(true, commands)
    ensures CancelDisabled(true, None) && !RemoveShown(true)
  {
  }

  /** Run can be pressed exactly when no row failed, no batch runs, and every command's
   *  arguments evaluated. */
  lemma RunEnabled(isExecuting: bool, failedIndex: Option<nat>, commands: seq<ParsedCommand>)
    ensures RunShown(failedIndex) && !RunDisabled(isExecuting, commands)
      <==> failedIndex.None? && !isExecuting && forall c :: c in commands ==> c.isValid
  {
    if forall c :: c in commands ==> c.isValid {
      assert forall i :: 0 <= i < |commands| ==> commands[i] in commands;
    } else {
      var c :| c in commands && !c.isValid;
      var i :| 0 <= i < |commands| && commands[i] == c;
    }
  }
}
