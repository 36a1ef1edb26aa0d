/** A mission session as the service keeps it: an object whose operations work in place, statement by
    statement, on its own fields and on its world, adapter and workflow state. Each operation is proved
    to have exactly the effect that the step functions of `Sessions` give, wherever it raises. */
module MissionSessions {
  import opened Domain
  import opened Workflow
  import opened Planning
  import opened Safety
  import opened Sessions
  import opened Service
  import Plant

  class MissionSession {
    const world: Plant.ReferenceWorld
    const adapter: Plant.SimulatorAdapter
    const state: WorkflowState
    const intent: Intent
    var snapshot: Option<Snapshot>
    var plan: Option<Plan>
    var proposal: Option<Proposal>
    var proof: Option<Proof>
    var approval: Option<Approval>
    var mission: Option<Mission>
    var replan: Option<Replanned>
    var version: nat
    var trace: seq<Span>
    ghost var moves: seq<Move>

    ghost predicate Valid() { adapter.world == world }

    ghost function Objects(): set<object> { {this, world, adapter, state} }

    ghost function View(): Session
      requires Valid()
      reads this, world, adapter, state
    {
      Session(adapter.View(), state.View(), intent, snapshot, plan, proposal, proof, approval, mission, replan,
        version, trace, moves)
    }

    constructor (site: Site, agvs: map<Id, Agv>, locations: map<Id, Location>, pallets: map<Id, Id>, intent: Intent)
      ensures Valid() && fresh(Objects()) && world.site == site
      ensures View() == New(Plant.World(agvs, locations, pallets, map[], 0), intent)
    {
      var w := new Plant.ReferenceWorld(site, agvs, locations, pallets);
      var a := new Plant.SimulatorAdapter(w);
      var f := new WorkflowState();
      world, adapter, state, this.intent := w, a, f, intent;
      snapshot, plan, proposal, proof, approval, mission, replan := None, None, None, None, None, None, None;
      version, trace, moves := 1, [], [];
    }

    /** A transition the table allows, with its span. */
    method Enter(target: MissionStatus)
      requires Valid() && target in Allowed(state.current)
      modifies this`trace, state
      ensures View() == old(View()).Enter(target)
    {
      var _ := state.Transition(target);
      trace := trace + [Transitioned(target)];
    }

    /** A transition just before raising. */
    method Abort(target: MissionStatus)
      requires Valid() && target in Allowed(state.current)
      modifies state
      ensures View() == old(View()).Abort(target)
    {
      var _ := state.Transition(target);
    }

    method Record(span: Span)
      requires Valid()
      modifies this`trace
      ensures View() == old(View()).Log(span)
    {
      trace := trace + [span];
    }

    /** The version moves on, and the session's copy of the mission with it. */
    method Commit(name: OperationName)
      requires Valid()
      modifies this
      ensures View() == Finish(old(View()), name)
    {
      version := version + 1;
      if mission.Some? {
        mission := Some(mission.value.(version := version));
      }
      trace := trace + [Span.Committed(name, version)];
    }

    /** `world.snapshot`, which raises when an AGV stands off the map. */
    method GetOperationalSnapshot(now: real) returns (taken: Option<Snapshot>)
      requires Valid()
      modifies world
      ensures View() == old(View()).CountSnapshot()
      ensures taken == if Plant.OnMap(world.site, old(world.View()))
                       then Some(Plant.Capture(world.site, Plant.Counted(old(world.View())), now)) else None
    {
      taken := world.TakeSnapshot(now);
    }

    method PrepareProposal(now: real, proposed: Option<Proposal>) returns (result: Result, ghost planned: Outcome)
      requires Valid()
      modifies this, world, adapter, state
      ensures Possible(world.site, old(View()), Prepare(now, planned, proposed))
      ensures (View(), result) == DoPrepare(world.site, old(View()), now, planned, proposed)
    {
      hide Propose, Plans, Plant.Capture;
      planned := NoFeasiblePlan;
      if state.current != INTENT {
        return Raised(WrongState), planned;
      }
      var taken := GetOperationalSnapshot(now);
      if taken.None? {
        return Raised(OffMap), planned;
      }
      var observed := taken.value;
      snapshot := taken;
      Enter(OBSERVED);
      if intent.source !in world.locations || intent.destination !in world.locations {
        Abort(FAILED_SAFE);
        return Raised(NotLive), planned;
      }
      var outcome := MakeRoute(observed, intent, None, None);
      planned := outcome;
      if !outcome.Planned? {
        return Raised(NoPlan), planned;
      }
      result := ProposeRoute(outcome.plan, observed, proposed);
    }

    method ProposeRoute(made: Plan, observed: Snapshot, proposed: Option<Proposal>) returns (result: Result)
      requires Valid() && state.current == OBSERVED
      modifies this, state
      ensures (View(), result) == Propose(old(View()), made, observed, proposed)
    {
      hide Judge;
      plan := Some(made);
      Enter(PLANNED);
      if proposed.None? {
        return Raised(ProviderFailed);
      }
      proposal := proposed;
      Enter(PROPOSED);
      result := JudgeProposal(made, observed, proposed.value);
    }

    method JudgeProposal(made: Plan, observed: Snapshot, proposed: Proposal) returns (result: Result)
      requires Valid() && state.current == PROPOSED
      modifies this, state
      ensures (View(), result) == Judge(old(View()), made, observed, proposed)
    {
      hide RouteProof;
      var checked := Verify(intent, made, observed, proposed);
      proof := Some(checked);
      if !checked.passed {
        Abort(REJECTED);
        return Raised(ProofFailed);
      }
      Enter(VERIFIED);
      return Done;
    }

    method ApproveProposal(actor: Id, token: Id, missionId: Id, issuedAt: real, checkedAt: real)
      returns (result: Result)
      requires Valid()
      modifies this, world, adapter, state
      ensures (View(), result) == DoApprove(old(View()), actor, token, missionId, issuedAt, checkedAt)
    {
      hide BindApproval, IssueApproval;
      if state.current != VERIFIED || proposal.None? {
        return Raised(WrongState);
      }
      var issued := IssueApproval(token, proposal.value.hash, GoalOf(intent), actor, issuedAt);
      if proof.None? {
        return Raised(WrongState);
      }
      var sealed := BindApproval(proof.value, proposal.value, issued, checkedAt);
      proof := Some(sealed);
      if !sealed.passed {
        return Raised(ApprovalFailed);
      }
      approval := Some(issued);
      Enter(APPROVED);
      if plan.None? {
        return Raised(WrongState);
      }
      mission := Some(Plant.Mission(missionId, proposal.value.hash, GoalOf(intent), intent.pallet, intent.source,
        intent.destination, plan.value.agv, plan.value.nodes, plan.value.version, APPROVED, 1, 0));
      return Done;
    }

    method RejectProposal() returns (result: Result)
      requires Valid()
      modifies this, world, adapter, state
      ensures (View(), result) == DoReject(old(View()))
    {
      if state.current != VERIFIED {
        return Raised(WrongState);
      }
      Enter(REJECTED);
      return Done;
    }

    /** What `advance` and its telemetry span leave, with the authority of the motion where there is one. */
    method Drove(moved: Mission, ghost auth: Option<Authority>)
      requires Valid()
      modifies this
      ensures View() == match auth
        case Some(a) => Moved(old(View()), old(adapter.View()), moved, a)
        case None => Advanced(old(View()), old(adapter.View()), moved)
    {
      mission := Some(moved);
      var node := if moved.agv in world.agvs then world.agvs[moved.agv].node else 0;
      moves := match auth case Some(a) => moves + [Move(node, a)] case None => moves;
      trace := trace + [Telemetry(moved.status, node)];
    }

    method StartMission(id: Id, now: real) returns (result: Result)
      requires Valid()
      modifies this, world, adapter, state
      ensures (View(), result) == DoStart(world.site, old(View()), id, now)
    {
      if mission.None? || approval.None? || proposal.None? {
        return Raised(WrongState);
      }
      if state.current != APPROVED {
        return Raised(WrongState);
      }
      if !ValidFor(approval.value, proposal.value, now) {
        Abort(FAILED_SAFE);
        return Raised(ApprovalFailed);
      }
      var started := adapter.StartMission(mission.value);
      if started.None? {
        return Raised(AdapterFailed);
      }
      mission := started;
      Enter(EXECUTING);
      var advanced := adapter.AdvanceMission(id);
      if advanced.None? {
        return Raised(AdapterFailed);
      }
      ghost var auth := if plan.None? || snapshot.None? then None
                        else Some(Authority(plan.value, snapshot.value, approval.value, now));
      Drove(advanced.value, auth);
      return Done;
    }

    method StopMission(id: Id, trigger: string, now: real) returns (result: Result)
      requires Valid()
      modifies this, world, adapter, state
      ensures (View(), result) == DoStop(world.site, old(View()), id, trigger, now)
    {
      if state.current != EXECUTING {
        return Raised(WrongState);
      }
      var recorded := world.AddHeroBlockage(now);
      if !recorded {
        return Raised(BadBlockage);
      }
      Enter(BLOCKED);
      var stopped := adapter.StopLocally(id, trigger);
      if !stopped {
        return Raised(AdapterFailed);
      }
      if mission.Some? {
        if mission.value.id !in adapter.missions {
          return Raised(AdapterFailed);
        }
        mission := Some(adapter.missions[mission.value.id]);
      }
      Enter(SAFE_STOP);
      return Done;
    }

    method ReplanMission(now: real, recovery: Option<Recovery>, checkedAt: real)
      returns (result: Result, ghost planned: Outcome)
      requires Valid()
      modifies this, world, adapter, state
      ensures Possible(world.site, old(View()), Replan(now, recovery, planned, checkedAt))
      ensures (View(), result) == DoReplan(world.site, old(View()), now, recovery, planned, checkedAt)
    {
      hide Equivalent, Plans, Plant.Capture;
      planned := NoFeasiblePlan;
      if state.current != SAFE_STOP || mission.None? || proposal.None? || approval.None? {
        return Raised(WrongState), planned;
      }
      var taken := GetOperationalSnapshot(now);
      if taken.None? {
        return Raised(OffMap), planned;
      }
      var observed := taken.value;
      if recovery.None? {
        return Raised(ProviderFailed), planned;
      }
      if !recovery.value.replans || recovery.value.goal != GoalOf(intent) {
        Abort(FAILED_SAFE);
        return Raised(GoalNotPreserved), planned;
      }
      Enter(REPLANNING);
      if mission.value.agv !in world.agvs {
        return Raised(NoPlan), planned;
      }
      var outcome := MakeRoute(observed, intent, Some(world.agvs[mission.value.agv].node), Some(mission.value.agv));
      planned := outcome;
      if !outcome.Planned? {
        return Raised(NoPlan), planned;
      }
      result := ProveEquivalent(outcome.plan, observed, checkedAt);
    }

    method ProveEquivalent(made: Plan, observed: Snapshot, checkedAt: real) returns (result: Result)
      requires Valid() && state.current == REPLANNING && proposal.Some? && approval.Some?
      modifies this, state
      ensures (View(), result) == Equivalent(old(View()), made, observed, checkedAt)
    {
      hide RouteProof, BindApproval;
      var equivalent := IssueProposal(proposal.value.id, intent, made, observed.id, 0);
      var route := Verify(intent, made, observed, equivalent);
      var sealed := BindApproval(route, proposal.value, approval.value, checkedAt);
      replan := Some(Replanned(made, sealed, observed));
      if !sealed.passed {
        Abort(FAILED_SAFE);
        return Raised(ProofFailed);
      }
      Enter(VERIFIED);
      return Done;
    }

    /** The loop of `resume_and_complete`. It ends for every session: while the mission executes, each
        advance brings the end of its route nearer or raises. */
    method DriveMission(id: Id, ghost auth: Authority) returns (result: Result)
      requires Valid()
      modifies this, world, adapter
      ensures (View(), result) == Drive(world.site, old(View()), id, auth)
    {
      hide Plant.Advance, Remaining, Drive;
      while mission.Some? && mission.value.status == EXECUTING
        invariant Drive(world.site, View(), id, auth) == Drive(world.site, old(View()), id, auth)
        decreases Remaining(adapter.View(), id)
      {
        AdvanceProgresses(world.site, adapter.View(), id);
        DriveTurn(world.site, View(), id, auth);
        var advanced := adapter.AdvanceMission(id);
        if advanced.None? {
          return Raised(AdapterFailed);
        }
        Drove(advanced.value, Some(auth));
      }
      DriveTurn(world.site, View(), id, auth);
      return Done;
    }

    method ResumeAndComplete(id: Id, now: real) returns (result: Result)
      requires Valid()
      modifies this, world, adapter, state
      ensures (View(), result) == DoResume(world.site, old(View()), id, now)
    {
      hide Plant.ReplaceRoute, ValidFor, Drive;
      if state.current != VERIFIED || mission.None? || replan.None? || !replan.value.proof.passed
         || approval.None? || proposal.None? || !ValidFor(approval.value, proposal.value, now) {
        return Raised(WrongState);
      }
      var rerouted := adapter.Reroute(id, replan.value.plan);
      if rerouted.None? {
        return Raised(AdapterFailed);
      }
      mission := rerouted;
      Enter(EXECUTING);
      result := DriveMission(id, ResumeAuthority(View(), now));
      if result.Done? {
        Enter(COMPLETED);
      }
    }

    method OverrideToFailedSafe() returns (result: Result)
      requires Valid()
      modifies this, world, adapter, state
      ensures (View(), result) == DoOverride(old(View()))
    {
      if state.current != SAFE_STOP && state.current != VERIFIED {
        return Raised(WrongState);
      }
      approval := None;
      Enter(FAILED_SAFE);
      return Done;
    }

    /** The body of a request, by its operation. The planner's outcome named in `op` is not looked at;
        the one that the planner returns is given back. */
    method Run(id: Id, op: Operation) returns (result: Result, ghost planned: Outcome)
      requires Valid()
      modifies this, world, adapter, state
      ensures Possible(world.site, old(View()), Decided(op, planned))
      ensures (View(), result) == Perform(world.site, old(View()), id, Decided(op, planned))
    {
      hide Plans, DoPrepare, DoApprove, DoReject, DoStart, DoStop, DoReplan, DoResume, DoOverride;
      planned := NoFeasiblePlan;
      match op {
        case Prepare(now, _, proposed) => result, planned := PrepareProposal(now, proposed);
        case Approve(actor, token, missionId, issuedAt, checkedAt) =>
          result := ApproveProposal(actor, token, missionId, issuedAt, checkedAt);
        case Reject => result := RejectProposal();
        case Start(now) => result := StartMission(id, now);
        case Stop(trigger, now) => result := StopMission(id, trigger, now);
        case Replan(now, recovery, _, checkedAt) => result, planned := ReplanMission(now, recovery, checkedAt);
        case Resume(now) => result := ResumeAndComplete(id, now);
        case Override => result := OverrideToFailedSafe();
      }
    }
  }
}
