/** The workflow state machine of state_machine.py. */
module Workflow {
  import opened Domain

  function Allowed(from: MissionStatus): set<MissionStatus> {
    match from
    case INTENT => {OBSERVED, NEEDS_INPUT}
    case NEEDS_INPUT => {INTENT, REJECTED}
    case OBSERVED => {PLANNED, FAILED_SAFE}
    case PLANNED => {PROPOSED, REJECTED}
    case PROPOSED => {VERIFIED, REJECTED}
    case VERIFIED => {APPROVED, EXECUTING, REJECTED, FAILED_SAFE}
    case APPROVED => {EXECUTING, REJECTED, FAILED_SAFE}
    case EXECUTING => {BLOCKED, COMPLETED, FAILED_SAFE}
    case BLOCKED => {SAFE_STOP, FAILED_SAFE}
    case SAFE_STOP => {REPLANNING, FAILED_SAFE}
    case REPLANNING => {VERIFIED, FAILED_SAFE}
    case COMPLETED => {}
    case REJECTED => {}
    case FAILED => {}
    case FAILED_SAFE => {}
  }

  /** The same table by where a state can be entered from. Nothing leads to FAILED. */
  lemma TableByTarget(from: MissionStatus, target: MissionStatus)
    ensures target in Allowed(from) <==>
      match target
      case INTENT => from == NEEDS_INPUT
      case NEEDS_INPUT => from == INTENT
      case OBSERVED => from == INTENT
      case PLANNED => from == OBSERVED
      case PROPOSED => from == PLANNED
      case VERIFIED => from == PROPOSED || from == REPLANNING
      case APPROVED => from == VERIFIED
      case EXECUTING => from == VERIFIED || from == APPROVED
      case BLOCKED => from == EXECUTING
      case SAFE_STOP => from == BLOCKED
      case REPLANNING => from == SAFE_STOP
      case COMPLETED => from == EXECUTING
      case REJECTED => from in {NEEDS_INPUT, PLANNED, PROPOSED, VERIFIED, APPROVED}
      case FAILED => false
      case FAILED_SAFE => from in {OBSERVED, VERIFIED, APPROVED, EXECUTING, BLOCKED, SAFE_STOP, REPLANNING}
  {
  }

  /** The history starts at INTENT and every step is in the table. */
  ghost predicate FollowsTable(history: seq<MissionStatus>) {
    && history != [] && history[0] == INTENT
    && forall i :: 0 < i < |history| ==> history[i] in Allowed(history[i - 1])
  }

  datatype Flow = Flow(current: MissionStatus, history: seq<MissionStatus>) {
    /** `transition` to a target the table allows. */
    function To(target: MissionStatus): Flow { Flow(target, history + [target]) }
  }

  const FLOW_START := Flow(INTENT, [INTENT])

  ghost predicate FlowOk(f: Flow) {
    FollowsTable(f.history) && f.history[|f.history| - 1] == f.current
  }

  lemma ToKeepsFlow(f: Flow, target: MissionStatus)
    requires FlowOk(f) && target in Allowed(f.current)
    ensures FlowOk(f.To(target))
  {
  }

  class WorkflowState {
    var current: MissionStatus
    var history: seq<MissionStatus>

    ghost function View(): Flow
      reads this
    {
      Flow(current, history)
    }

    constructor ()
      ensures View() == FLOW_START
    {
      current, history := INTENT, [INTENT];
    }

    /** Raises, changing nothing, when the table has no such step. */
    method Transition(target: MissionStatus) returns (ok: bool)
      modifies this
      ensures ok <==> target in Allowed(old(current))
      ensures View() == if ok then old(View()).To(target) else old(View())
    {
      if target !in Allowed(current) {
        return false;
      }
      current := target;
      history := history + [target];
      return true;
    }
  }

  /** Between two executions the workflow was blocked, safely stopped, replanned and verified again, in
      that order, with at most a renewed approval before it resumed. This is a property of the table. */
  lemma {:induction false} ExecutionsAreSeparatedByReplanning(history: seq<MissionStatus>, i: nat, j: nat)
    requires FollowsTable(history) && i < j < |history|
    requires history[i] == EXECUTING && history[j] == EXECUTING
    requires forall k :: i < k < j ==> history[k] != EXECUTING
    ensures j == i + 5 || (j == i + 6 && history[i + 5] == APPROVED)
    ensures history[i + 1] == BLOCKED && history[i + 2] == SAFE_STOP && history[i + 3] == REPLANNING &&
      history[i + 4] == VERIFIED
  {
    assert history[i + 1] in Allowed(history[i]);
    assert i + 1 < j ==> history[i + 2] in Allowed(history[i + 1]);
    assert i + 2 < j ==> history[i + 3] in Allowed(history[i + 2]);
    assert i + 3 < j ==> history[i + 4] in Allowed(history[i + 3]);
    assert i + 4 < j ==> history[i + 5] in Allowed(history[i + 4]);
    assert i + 5 < j ==> history[i + 6] in Allowed(history[i + 5]);
    assert i + 6 < j ==> history[i + 7] in Allowed(history[i + 6]);
  }

  /** Two successive executions, at `i` and `j`, with the whole recovery between them. */
  ghost predicate RecoveredBetween(history: seq<MissionStatus>, i: nat, j: nat) {
    && i + 5 <= j < |history|
    && history[i + 1] == BLOCKED && history[i + 2] == SAFE_STOP && history[i + 3] == REPLANNING
    && history[i + 4] == VERIFIED
  }

  /** Executions at `i` and `j` with none between. */
  ghost predicate Successive(history: seq<MissionStatus>, i: nat, j: nat) {
    && i < j < |history| && history[i] == EXECUTING && history[j] == EXECUTING
    && forall k :: i < k < j ==> history[k] != EXECUTING
  }

  ghost predicate ExecutionsSeparated(history: seq<MissionStatus>) {
    forall i: nat, j: nat :: Successive(history, i, j) ==> RecoveredBetween(history, i, j)
  }

  lemma {:induction false} TableSeparatesExecutions(history: seq<MissionStatus>)
    requires FollowsTable(history)
    ensures ExecutionsSeparated(history)
  {
    forall i: nat, j: nat | Successive(history, i, j) ensures RecoveredBetween(history, i, j) {
      ExecutionsAreSeparatedByReplanning(history, i, j);
    }
  }

  /** The last states of a completed history. */
  const RECOVERY := [EXECUTING, BLOCKED, SAFE_STOP, REPLANNING, VERIFIED, EXECUTING, COMPLETED]

  ghost predicate EndsRecovered(history: seq<MissionStatus>) {
    |history| >= |RECOVERY| && history[|history| - |RECOVERY|..] == RECOVERY
  }

  lemma {:induction false} NotExecutedYet(history: seq<MissionStatus>)
    requires FollowsTable(history)
    requires history[|history| - 1] in {INTENT, NEEDS_INPUT, OBSERVED, PLANNED, PROPOSED}
    ensures EXECUTING !in history
  {
    var before, last := history[..|history| - 1], history[|history| - 1];
    if before != [] {
      assert last in Allowed(before[|before| - 1]);
      NotExecutedYet(before);
    }
    assert history == before + [last];
  }

  /** Verified after an execution, the workflow has a whole recovery behind it; to resume and complete
      from there adds the last two states. */
  lemma {:induction false} VerifiedAgain(history: seq<MissionStatus>)
    requires FollowsTable(history) && history[|history| - 1] == VERIFIED && EXECUTING in history
    ensures EndsRecovered(history + [EXECUTING] + [COMPLETED])
  {
    var n := |history| - 1;
    var before := history[..n];
    assert history == before + [VERIFIED];
    assert n > 0 && history[n] in Allowed(history[n - 1]);
    if history[n - 1] == PROPOSED {
      NotExecutedYet(before);
      assert false;
    }
    assert n > 1 && history[n - 1] in Allowed(history[n - 2]);
    assert n > 2 && history[n - 2] in Allowed(history[n - 3]);
    assert n > 3 && history[n - 3] in Allowed(history[n - 4]);
  }

  /** An approved mission that has not executed is still waiting to, or refused for good. */
  lemma ApprovedWaits(history: seq<MissionStatus>)
    requires FollowsTable(history) && APPROVED in history && EXECUTING !in history
    ensures history[|history| - 1] in {APPROVED, REJECTED, FAILED_SAFE}
  {
    var i :| 0 <= i < |history| && history[i] == APPROVED;
    assert i + 1 < |history| ==> history[i + 1] in Allowed(history[i]);
    assert i + 2 < |history| ==> history[i + 2] in Allowed(history[i + 1]);
  }

  /** Without a block there is no stop, no replan and no recovered completion. */
  lemma NoBlockNoRecovery(history: seq<MissionStatus>)
    requires FollowsTable(history) && BLOCKED !in history
    ensures SAFE_STOP !in history && REPLANNING !in history && !EndsRecovered(history)
  {
    forall i | 0 <= i < |history| ensures history[i] != SAFE_STOP {
      assert i > 0 ==> history[i] in Allowed(history[i - 1]);
    }
    forall i | 0 <= i < |history| ensures history[i] != REPLANNING {
      assert i > 0 ==> history[i] in Allowed(history[i - 1]);
    }
    assert |history| >= |RECOVERY| ==> history[|history| - |RECOVERY|..][1] in history;
  }

  /** Nothing follows a completion. */
  lemma CompletionIsLast(history: seq<MissionStatus>, i: nat)
    requires FollowsTable(history) && i < |history| && history[i] == COMPLETED
    ensures i == |history| - 1
  {
    assert i + 1 < |history| ==> history[i + 1] in Allowed(history[i]);
  }
}
