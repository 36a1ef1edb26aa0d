/** When each operation commits, and what a stopped or completed session stays as. */
module SessionOutcomes {
  import opened Domain
  import opened Workflow
  import opened RoutePlanner
  import opened Planning
  import opened Safety
  import Plant
  import opened Sessions
  import opened SessionInvariant
  import opened SessionSteps
  import opened SessionEffects

  // ---- When an operation commits ----

  /** The dispatch of an approved mission commits only once in a session's life. A renewed approval
      reaches the same state, but its start always raises. */
  lemma {:induction false} StartCommits(site: Site, s: Session, id: Id, now: real)
    requires Inv(site, s)
    ensures DoStart(site, s, id, now).1 == Done <==>
      && s.flow.current == APPROVED && !HasExecuted(s) && s.mission.Some? && s.mission.value.id == id
      && s.approval.Some? && ValidFor(s.approval.value, s.proposal.value, now)
  {
    hide SafeRoute, Plans, ApprovedFirst, FlowOk, MovesOk, CargoOk;
    if s.mission.Some? && s.approval.Some? && s.proposal.Some? && s.flow.current == APPROVED
       && ValidFor(s.approval.value, s.proposal.value, now) {
      if HasExecuted(s) {
        SecondStartKeeps(site, s, id, now);
      } else {
        FirstStart(site, s, id, now);
      }
    }
  }

  /** What the first start does: the AGV, wherever it stood, is put at the second node of the route. */
  lemma {:induction false} FirstStart(site: Site, s: Session, id: Id, now: real)
    requires Inv(site, s) && s.flow.current == APPROVED && s.mission.Some? && s.approval.Some? && !HasExecuted(s)
    requires s.proposal.Some? && ValidFor(s.approval.value, s.proposal.value, now)
    ensures var (t, result) := DoStart(site, s, id, now);
      && t.flow.current == EXECUTING && t.replan == s.replan && t.plan == s.plan && Dispatched(t)
      && (result == Done <==> id == s.mission.value.id) && TheMission(t).id == s.mission.value.id
      && (result == Done ==>
           && var nodes := s.plan.value.nodes;
             && t.moves == s.moves + [Move(nodes[1], FirstAuthority(s, now))]
             && t.plant.world.agvs[s.plan.value.agv].node == nodes[1]
             && TheMission(t).status == (if |nodes| == 2 then COMPLETED else EXECUTING)
             && (|nodes| == 2 ==> Plant.Arrived(site, t.plant.world, TheMission(t), Last(nodes))))
  {
    hide SafeRoute, Plans, StageOk, CargoOk, CopyOk, MovesOk, HistoryOk, TraceOk, AdapterOk, ReplanOk, Grows,
      KeepsMission;
    FirstDispatch(site, s);
    var (plant, m) := Plant.Start(site, s.plant, s.mission.value).value;
    var s1 := s.(plant := plant, mission := Some(m)).Enter(EXECUTING);
    ApprovedFacts(site, s);
    if id == m.id {
      FirstAdvance(site, s1, s, now);
      var (plant', m') := Plant.Advance(site, plant, id).value;
      assert DoStart(site, s, id, now) == (Moved(s1, plant', m', FirstAuthority(s, now)), Done);
    } else {
      assert Plant.Advance(site, plant, id) == None;
      assert DoStart(site, s, id, now) == (s1, Raised(AdapterFailed));
    }
  }

  function FirstAuthority(s: Session, now: real): Authority
    requires s.plan.Some? && s.snapshot.Some? && s.approval.Some?
  {
    Authority(s.plan.value, s.snapshot.value, s.approval.value, now)
  }

  lemma ApprovedFacts(site: Site, s: Session)
    requires Inv(site, s) && s.flow.current == APPROVED
    ensures s.plan.Some? && s.snapshot.Some? && s.proposal.Some?
  {
  }

  lemma FirstAdvance(site: Site, s1: Session, s: Session, now: real)
    requires Inv(site, s1) && s1.flow.current == EXECUTING && Dispatched(s1) && s1.approval.Some? && s1.snapshot.Some?
    requires s1 == s.(plant := s1.plant, mission := s1.mission, flow := s1.flow, trace := s1.trace)
    requires ValidFor(s1.approval.value, s1.proposal.value, now)
    requires TheMission(s1).status == EXECUTING && TheMission(s1).route == s1.plan.value.nodes &&
      TheMission(s1).index == 0
    ensures Plant.Advance(site, s1.plant, TheMission(s1).id).Some?
    ensures var (plant, m) := Plant.Advance(site, s1.plant, TheMission(s1).id).value;
      var t := Moved(s1, plant, m, FirstAuthority(s, now));
      var nodes := s.plan.value.nodes;
      && Dispatched(t) && TheMission(t).id == TheMission(s1).id
      && t.moves == s.moves + [Move(nodes[1], FirstAuthority(s, now))]
      && t.plant.world.agvs.Keys == s1.plant.world.agvs.Keys
      && s.plan.value.agv in t.plant.world.agvs && t.plant.world.agvs[s.plan.value.agv].node == nodes[1]
      && TheMission(t).status == (if |nodes| == 2 then COMPLETED else EXECUTING)
      && (|nodes| == 2 ==> Plant.Arrived(site, t.plant.world, TheMission(t), Last(nodes)))
  {
    hide SafeRoute, Plans, HistoryOk, TraceOk, CargoOk, AdapterOk, CopyOk, MovesOk, ReplanOk, Grows, KeepsMission,
      Plant.Arrived, StatusOk;
    FirstCovers(site, s1, now);
    MovedKeeps(site, s1, TheMission(s1).id, FirstAuthority(s, now));
    MovedEvolves(site, s1, TheMission(s1).id, FirstAuthority(s, now));
    MoveIsLogged(site, s1, TheMission(s1).id);
    var (plant, m) := Plant.Advance(site, s1.plant, TheMission(s1).id).value;
    AdapterKeepsMission(site, Moved(s1, plant, m, FirstAuthority(s, now)));
  }

  lemma FirstCovers(site: Site, s: Session, now: real)
    requires Inv(site, s) && s.flow.current == EXECUTING && s.approval.Some?
    requires s.proposal.Some? && ValidFor(s.approval.value, s.proposal.value, now)
    ensures s.plan.Some? && s.snapshot.Some? && s.snapshot.value.nodes == site.nodes &&
      Covers(s, FirstAuthority(s, now))
  {
    hide SafeRoute, Plans;
  }

  lemma {:induction false} StopCommits(site: Site, s: Session, id: Id, trigger: string, now: real)
    requires Inv(site, s)
    ensures DoStop(site, s, id, trigger, now).1 == Done <==>
      s.flow.current == EXECUTING && Plant.BlockageOk(site) && trigger != "" && Dispatched(s) && id == TheMission(s).id
  {
    hide SafeRoute, Plans, ApprovedFirst, FlowOk, MovesOk, CargoOk;
    if s.flow.current == EXECUTING {
      PreparedFacts(site, s);
    }
  }

  lemma {:induction false} ReplanCommits(site: Site, s: Session, now: real, recovery: Option<Recovery>,
    planned: Outcome, checkedAt: real)
    requires Inv(site, s)
    ensures DoReplan(site, s, now, recovery, planned, checkedAt).1 == Done <==>
      && MayReplan(s) && recovery.Some? && Preserves(s, recovery.value) && planned.Planned?
      && planned.plan.mapVersion == site.mapVersion
      && SafeRoute(s.intent, planned.plan, Plant.Capture(site, Plant.Counted(s.plant.world), now))
      && ValidFor(s.approval.value, s.proposal.value, checkedAt)
  {
    hide Inv, SafeRoute, RouteProof, BindApproval;
    if MayReplan(s) {
      ReplanEntities(site, s);
    }
    if MayReplan(s) && planned.Planned? {
      var snapshot := Plant.Capture(site, Plant.Counted(s.plant.world), now);
      var p := IssueProposal(s.proposal.value.id, s.intent, planned.plan, snapshot.id, 0);
      SealedRoutePasses(s.intent, planned.plan, snapshot, p, s.proposal.value, s.approval.value, checkedAt);
    }
  }

  /** A resume that passes its guard for the adapter's mission commits, and no other does. */
  lemma {:induction false} ResumeCommits(site: Site, s: Session, id: Id, now: real)
    requires Inv(site, s)
    ensures DoResume(site, s, id, now).1 == Done <==>
      MayResume(s, now) && HasExecuted(s) && Dispatched(s) && id == TheMission(s).id
  {
    hide Inv, SafeRoute, Plans;
    if MayResume(s, now) {
      MayRerouteExactly(site, s, id, now);
      if Plant.ReplaceRoute(s.plant, id, s.replan.value.plan).Some? {
        ResumeEffect(site, s, id, now);
      }
    }
  }

  /** The adapter takes the new route exactly for the mission it holds. */
  lemma MayRerouteExactly(site: Site, s: Session, id: Id, now: real)
    requires Inv(site, s) && MayResume(s, now)
    ensures HasExecuted(s) && Dispatched(s)
    ensures Plant.ReplaceRoute(s.plant, id, s.replan.value.plan).Some? <==> id == TheMission(s).id
  {
    hide SafeRoute, Plans, ApprovedFirst, FlowOk, MovesOk, CargoOk;
    PreparedFacts(site, s);
  }

  lemma {:induction false} PrepareCommits(site: Site, s: Session, now: real, planned: Outcome,
    proposed: Option<Proposal>)
    ensures DoPrepare(site, s, now, planned, proposed).1 == Done <==>
      var snapshot := Plant.Capture(site, Plant.Counted(s.plant.world), now);
      && s.flow.current == INTENT && Plant.OnMap(site, s.plant.world) && BothLive(s) && planned.Planned?
      && proposed.Some?
      && SafeRoute(s.intent, planned.plan, snapshot) && VersionsMatch(planned.plan, snapshot, proposed.value)
      && SemanticsMatch(s.intent, planned.plan, proposed.value)
  {
    hide SafeRoute, RouteProof;
    if planned.Planned? && proposed.Some? {
      ProofPasses(s.intent, planned.plan, Plant.Capture(site, Plant.Counted(s.plant.world), now), proposed.value);
    }
  }

  lemma {:induction false} ApproveCommits(site: Site, s: Session, actor: Id, token: Id, missionId: Id, issuedAt: real,
    checkedAt: real)
    requires Inv(site, s)
    ensures DoApprove(s, actor, token, missionId, issuedAt, checkedAt).1 == Done <==>
      && s.flow.current == VERIFIED && issuedAt <= checkedAt < issuedAt + APPROVAL_LIFETIME
      && (forall c :: c in s.proof.value.checks && c.name != ApprovalIntegrity ==> c.passed)
  {
    hide SafeRoute, Plans, ApprovedFirst, FlowOk, MovesOk, CargoOk, BindApproval;
    if s.flow.current == VERIFIED {
      VerifiedFacts(site, s);
      var approval := IssueApproval(token, s.proposal.value.hash, GoalOf(s.intent), actor, issuedAt);
      SealPasses(s.proof.value, s.proposal.value, approval, checkedAt, approval, checkedAt);
    }
  }

  // ---- Stillness ----

  /** The adapter holds the session's mission stopped. */
  ghost predicate Halted(s: Session) {
    HasExecuted(s) && Dispatched(s) && TheMission(s).status == SAFE_STOP
  }

  /** The adapter's missions, every AGV's place and the motions made are as before. */
  ghost predicate Motionless(s: Session, t: Session) {
    t.plant.adapter == s.plant.adapter && NobodyMoves(s.plant.world, t.plant.world) && t.moves == s.moves
    && t.plant.world.locations == s.plant.world.locations && t.plant.world.pallets == s.plant.world.pallets
  }

  lemma {:induction false} StopHalts(site: Site, s: Session, id: Id, trigger: string, now: real)
    requires Inv(site, s) && DoStop(site, s, id, trigger, now).1 == Done
    ensures Halted(DoStop(site, s, id, trigger, now).0)
  {
    hide Inv, SafeRoute;
    BlockedKeeps(site, s, now);
    var s1 := s.(plant := s.plant.(world := Plant.Blocked(site, s.plant.world, now))).Enter(BLOCKED);
    StoppedKeeps(site, s1, id);
    ExecutedWhenBlocked(site, s1);
  }

  lemma ExecutedWhenBlocked(site: Site, s: Session)
    requires Inv(site, s) && s.flow.current == BLOCKED
    ensures HasExecuted(s)
  {
  }

  lemma HaltedKeeps(site: Site, s: Session, t: Session)
    requires Inv(site, t) && Halted(s) && Evolves(s, t) && t.plant.adapter == s.plant.adapter
    ensures Halted(t)
  {
  }

  lemma HaltedStop(site: Site, s: Session, id: Id, trigger: string, now: real)
    requires Inv(site, s) && Halted(s)
    ensures Motionless(s, DoStop(site, s, id, trigger, now).0)
  {
    hide Inv, Evolves, SafeRoute;
    StopEvolves(site, s, id, trigger, now);
    var t := DoStop(site, s, id, trigger, now).0;
    assert t.plant.adapter.missions == s.plant.adapter.missions;
  }

  /** A stopped mission stays stopped, and no AGV moves, whatever is asked of the session, unless it is
      a resume that passes its guard. A second approval and start are no exception. */
  lemma {:induction false} Stillness(site: Site, s: Session, id: Id, op: Operation)
    requires Inv(site, s) && Possible(site, s, op) && Halted(s)
    requires !(op.Resume? && Perform(site, s, id, op).1 == Done)
    ensures Halted(Perform(site, s, id, op).0) && Motionless(s, Perform(site, s, id, op).0)
  {
    hide Inv, Evolves, Halted, SafeRoute;
    PerformKeeps(site, s, id, op);
    PerformEvolves(site, s, id, op);
    var t := Perform(site, s, id, op).0;
    match op {
      case Stop(trigger, now) => HaltedStop(site, s, id, trigger, now);
      case Start(now) => HaltedStart(site, s, id, now);
      case Resume(now) => HaltedResume(site, s, id, now);
      case Replan(now, recovery, planned, checkedAt) => ReplanIsMotionless(site, s, now, recovery, planned, checkedAt);
      case Prepare(now, planned, proposed) => HaltedPrepare(site, s, now, planned, proposed);
      case _ =>
    }
    HaltedKeeps(site, s, t);
  }

  lemma ReplanIsMotionless(site: Site, s: Session, now: real, recovery: Option<Recovery>, planned: Outcome,
    checkedAt: real)
    ensures Motionless(s, DoReplan(site, s, now, recovery, planned, checkedAt).0)
  {
    hide RouteProof, BindApproval, Plant.Capture;
  }

  lemma HaltedPrepare(site: Site, s: Session, now: real, planned: Outcome, proposed: Option<Proposal>)
    requires Inv(site, s) && Halted(s)
    ensures DoPrepare(site, s, now, planned, proposed).0 == s
  {
    hide Halted, SafeRoute;
    assert HasExecuted(s) by {
      HaltedHasExecuted(s);
    }
  }

  lemma HaltedHasExecuted(s: Session)
    requires Halted(s)
    ensures HasExecuted(s)
  {
  }

  lemma HaltedStart(site: Site, s: Session, id: Id, now: real)
    requires Inv(site, s) && Halted(s)
    ensures Motionless(s, DoStart(site, s, id, now).0)
  {
    hide Inv, SafeRoute;
    if s.mission.Some? && s.approval.Some? && s.proposal.Some? && s.flow.current == APPROVED
       && ValidFor(s.approval.value, s.proposal.value, now) {
      SecondStartKeeps(site, s, id, now);
    }
  }

  lemma HaltedResume(site: Site, s: Session, id: Id, now: real)
    requires Inv(site, s) && Halted(s) && DoResume(site, s, id, now).1 != Done
    ensures Motionless(s, DoResume(site, s, id, now).0)
  {
    hide Inv, SafeRoute;
    if MayResume(s, now) && Plant.ReplaceRoute(s.plant, id, s.replan.value.plan).Some? {
      ResumeEffect(site, s, id, now);
      assert false;
    } else if MayResume(s, now) {
      FailedRerouteLeavesNothing(site, s, id, now);
    }
  }

  // ---- Completion ----

  /** The last motions, along `nodes` from its second on, were made from its first, if any came before. */
  ghost predicate Continues(moves: seq<Move>, nodes: seq<Id>) {
    0 < |nodes| <= |moves| ==> moves[|moves| - |nodes|].node == nodes[0]
  }

  /** The load is at its destination by both records and the idle AGV at the destination's node. It
      got there from where the motion before had put it, node by node along the replanned route, every
      pair of nodes joined by an edge of the map, on one authority. */
  ghost predicate Delivered(site: Site, s: Session) {
    && Dispatched(s) && TheMission(s).status == COMPLETED && s.replan.Some? && s.approval.Some?
    && s.intent.destination in s.plant.world.locations
    && var nodes := s.replan.value.plan.nodes;
      && Last(nodes) == s.plant.world.locations[s.intent.destination].node
      && Plant.Arrived(site, s.plant.world, TheMission(s), Last(nodes))
      && (forall i :: 0 <= i < |nodes| - 1 ==> Linked(site.edges, nodes, i)) && Continues(s.moves, nodes)
      && exists at: real ::
           Walked(s, nodes, Authority(s.replan.value.plan, s.replan.value.snapshot, s.approval.value, at))
  }

  ghost predicate Walked(s: Session, nodes: seq<Id>, auth: Authority)
    requires nodes != []
  {
    |nodes| - 1 <= |s.moves| && s.moves[|s.moves| - (|nodes| - 1)..] == Along(nodes[1..], auth)
  }

  ghost predicate CompletedOk(site: Site, s: Session) {
    s.flow.current == COMPLETED ==> Delivered(site, s)
  }

  lemma {:induction false} ResumeDelivers(site: Site, s: Session, id: Id, now: real)
    requires Inv(site, s) && Standing(s) && DoResume(site, s, id, now).1 == Done
    ensures var t := DoResume(site, s, id, now).0;
      && Delivered(site, t) && t.flow.current == COMPLETED
      && s.replan.value.plan.nodes[0] == s.plant.world.agvs[s.replan.value.plan.agv].node
      && |t.moves| - |s.moves| == |s.replan.value.plan.nodes| - 1
  {
    hide Inv, SafeRoute, Plans, Plant.Arrived, DoResume, Linked, Continues, Along, Walked;
    ResumeGuard(site, s, id, now);
    ResumeEffect(site, s, id, now);
    var t := DoResume(site, s, id, now).0;
    var r := s.replan.value;
    ResumeKeepsPapers(site, s, id, now);
    PlanFollowsEdges(r.snapshot, s.intent, Some(r.plan.nodes[0]), Some(r.plan.agv), r.plan);
    AppendedWalked(s, t, r.plan.nodes, ResumeAuthority(s, now));
    AppendedContinues(s, r.plan.nodes, t.moves);
  }

  lemma AppendedWalked(s: Session, t: Session, nodes: seq<Id>, auth: Authority)
    requires nodes != [] && t.moves == s.moves + Along(nodes[1..], auth)
    ensures Walked(t, nodes, auth) && |t.moves| == |s.moves| + |nodes| - 1 && s.moves <= t.moves
  {
    assert |Along(nodes[1..], auth)| == |nodes| - 1;
    hide Along;
  }

  /** The selected AGV sets out from where it stands. */
  lemma AppendedContinues(s: Session, nodes: seq<Id>, moves: seq<Move>)
    requires Standing(s) && nodes != [] && s.moves <= moves && |moves| == |s.moves| + |nodes| - 1
    requires s.plan.Some? && s.plan.value.agv in s.plant.world.agvs ==>
      s.plant.world.agvs[s.plan.value.agv].node == nodes[0]
    ensures Continues(moves, nodes)
  {
  }

  lemma ResumeGuard(site: Site, s: Session, id: Id, now: real)
    requires Inv(site, s) && DoResume(site, s, id, now).1 == Done
    ensures MayResume(s, now) && Plant.ReplaceRoute(s.plant, id, s.replan.value.plan).Some?
    ensures var r := s.replan.value;
      && s.plan.Some? && r.plan.agv == s.plan.value.agv
      && r.plan.agv in s.plant.world.agvs && s.plant.world.agvs[r.plan.agv].node == r.plan.nodes[0]
      && Plans(r.snapshot, s.intent, Some(r.plan.nodes[0]), Some(r.plan.agv), Planned(r.plan))
      && s.intent.destination in r.snapshot.locations && s.intent.destination in s.plant.world.locations
      && r.snapshot.locations[s.intent.destination].node == s.plant.world.locations[s.intent.destination].node
      && r.snapshot.edges == site.edges
  {
    hide Core, Plans;
  }

  lemma ResumeKeepsPapers(site: Site, s: Session, id: Id, now: real)
    requires Inv(site, s) && MayResume(s, now) && Plant.ReplaceRoute(s.plant, id, s.replan.value.plan).Some?
    ensures var t := DoResume(site, s, id, now).0;
      && t.replan == s.replan && t.approval == s.approval && t.intent == s.intent && t.plan == s.plan
      && t.proposal == s.proposal && t.snapshot == s.snapshot && t.flow == s.flow.To(EXECUTING).To(COMPLETED)
  {
    hide Core, SafeRoute, Plans, Dispatched;
    RerouteKeeps(site, s, id, now);
    var (plant, m) := Plant.ReplaceRoute(s.plant, id, s.replan.value.plan).value;
    var s1 := s.(plant := plant, mission := Some(m)).Enter(EXECUTING);
    ResumeCovers(site, s, s1, now);
    DriveDelivers(site, s1, id, ResumeAuthority(s, now));
  }

  // ---- States that nothing leaves ----

  const FINAL_STATES := {OBSERVED, PLANNED, PROPOSED, BLOCKED, REPLANNING, COMPLETED, REJECTED, FAILED_SAFE,
    NEEDS_INPUT, FAILED}

  /** The service fails closed: an operation that raised half-way leaves one of these states for good,
      because every operation then refuses and changes nothing. */
  lemma {:induction false} FinalStatesAreFrozen(site: Site, s: Session, id: Id, op: Operation)
    requires s.flow.current in FINAL_STATES
    ensures Perform(site, s, id, op).0 == s && Perform(site, s, id, op).1.Raised?
  {
    hide RouteProof, BindApproval, Plant.Capture, Plant.Blocked, Plant.Start, Plant.Advance, Plant.LocalStop;
    match op
    case Prepare(now, planned, proposed) =>
      assert DoPrepare(site, s, now, planned, proposed) == (s, Raised(WrongState));
    case Stop(trigger, now) =>
      assert DoStop(site, s, id, trigger, now) == (s, Raised(WrongState));
    case Replan(now, recovery, planned, checkedAt) =>
      assert DoReplan(site, s, now, recovery, planned, checkedAt) == (s, Raised(WrongState));
    case _ =>
  }

  /** Completion can only come from a resume, and never goes away. */
  lemma {:induction false} CompletedKeeps(site: Site, s: Session, id: Id, op: Operation)
    requires Inv(site, s) && Standing(s) && Possible(site, s, op) && CompletedOk(site, s)
    ensures CompletedOk(site, Perform(site, s, id, op).0)
  {
    hide Inv, Delivered, SafeRoute, RouteProof, BindApproval, Plant.Capture;
    if s.flow.current == COMPLETED {
      FinalStatesAreFrozen(site, s, id, op);
    } else {
      match op {
        case Resume(now) => ResumeCompletes(site, s, id, now);
        case Start(now) => StartDoesNotComplete(site, s, id, now);
        case Stop(trigger, now) =>
        case _ =>
      }
    }
  }

  lemma ResumeCompletes(site: Site, s: Session, id: Id, now: real)
    requires Inv(site, s) && Standing(s) && s.flow.current != COMPLETED
    ensures CompletedOk(site, DoResume(site, s, id, now).0)
  {
    hide Inv, Delivered, SafeRoute;
    if MayResume(s, now) && Plant.ReplaceRoute(s.plant, id, s.replan.value.plan).Some? {
      ResumeEffect(site, s, id, now);
      ResumeDelivers(site, s, id, now);
    }
  }

  lemma StartDoesNotComplete(site: Site, s: Session, id: Id, now: real)
    requires s.flow.current != COMPLETED
    ensures DoStart(site, s, id, now).0.flow.current != COMPLETED
  {
  }

  // ---- Delivery without completion ----

  /** The selected AGV stands at the destination's node while the workflow is still on its way. */
  ghost predicate Stranded(s: Session) {
    && s.flow.current in {EXECUTING, BLOCKED, SAFE_STOP, REPLANNING, FAILED_SAFE}
    && s.plan.Some? && s.plan.value.agv in s.plant.world.agvs && s.intent.destination in s.plant.world.locations
    && s.plant.world.agvs[s.plan.value.agv].node == s.plant.world.locations[s.intent.destination].node
  }

  /** A route of two nodes is delivered by `start` itself. */
  lemma {:induction false} TwoNodeStartStrands(site: Site, s: Session, id: Id, now: real)
    requires Inv(site, s) && DoStart(site, s, id, now).1 == Done
    ensures var t := DoStart(site, s, id, now).0;
      && t.plan.Some? && Dispatched(t)
      && (TheMission(t).status == COMPLETED <==> |t.plan.value.nodes| == 2)
      && (|t.plan.value.nodes| == 2 ==> Stranded(t))
  {
    hide SafeRoute, Plans;
    StartCommits(site, s, id, now);
    FirstStart(site, s, id, now);
    PreparedFacts(site, s);
  }

  /** Nothing brings such a session to COMPLETED: from the destination to itself the planner makes no
      plan, so the replan that a resume needs never succeeds. */
  lemma {:induction false} StrandedStays(site: Site, s: Session, id: Id, op: Operation)
    requires Inv(site, s) && Possible(site, s, op) && Stranded(s)
    ensures Stranded(Perform(site, s, id, op).0)
  {
    hide Inv, Evolves, SafeRoute, Plans, RouteProof, BindApproval, Plant.Capture;
    match op
    case Stop(trigger, now) => StopEvolves(site, s, id, trigger, now);
    case Replan(now, recovery, planned, checkedAt) => StrandedReplan(site, s, now, recovery, planned, checkedAt);
    case _ =>
  }

  lemma StrandedReplan(site: Site, s: Session, now: real, recovery: Option<Recovery>, planned: Outcome, checkedAt: real)
    requires Inv(site, s) && Possible(site, s, Replan(now, recovery, planned, checkedAt)) && Stranded(s)
    ensures Stranded(DoReplan(site, s, now, recovery, planned, checkedAt).0)
  {
    hide SafeRoute, RouteProof, BindApproval, Core, Plans;
    if MayReplan(s) && recovery.Some? && Preserves(s, recovery.value) && planned.Planned? {
      CopyNamesTheAgv(site, s);
      ReplanEntities(site, s);
      NoPlanToHere(Plant.Capture(site, Plant.Counted(s.plant.world), now), s.intent,
        s.plant.world.agvs[s.plan.value.agv].node, s.plan.value.agv, planned.plan);
      assert false;
    }
  }

  lemma CopyNamesTheAgv(site: Site, s: Session)
    requires Inv(site, s) && s.mission.Some?
    ensures s.plan.Some? && s.mission.value.agv == s.plan.value.agv
  {
  }

  lemma NoPlanToHere(snapshot: Snapshot, intent: Intent, start: Id, agv: Id, plan: Plan)
    requires Plans(snapshot, intent, Some(start), Some(agv), Planned(plan))
    ensures snapshot.locations[intent.destination].node != start
  {
    PlanFollowsEdges(snapshot, intent, Some(start), Some(agv), plan);
    assert plan.nodes[0] != plan.nodes[|plan.nodes| - 1];
  }

  // ---- The replan ----

  /** A replan that commits leads the same AGV from where it stands to the approved destination, clear
      of every obstacle that is in force then, and in particular of a blockage that is. */
  lemma {:induction false} ReplanAvoidsObstacles(site: Site, s: Session, now: real, recovery: Option<Recovery>,
    planned: Outcome, checkedAt: real)
    requires Inv(site, s) && Possible(site, s, Replan(now, recovery, planned, checkedAt))
    requires DoReplan(site, s, now, recovery, planned, checkedAt).1 == Done
    ensures var w := s.plant.world;
      && planned.Planned? && s.plan.Some? && planned.plan.agv == s.plan.value.agv && planned.plan.agv in w.agvs
      && planned.plan.nodes[0] == w.agvs[planned.plan.agv].node
      && s.intent.destination in w.locations && Last(planned.plan.nodes) == w.locations[s.intent.destination].node
      && (forall o, i :: o in w.obstacles && Blocks(w.obstacles[o], now) && 0 < i < |planned.plan.nodes| ==>
            planned.plan.nodes[i] != w.obstacles[o].node)
      && (forall i :: 0 <= i < |planned.plan.nodes| - 1 ==> Linked(site.edges, planned.plan.nodes, i))
  {
    hide Inv, SafeRoute, Plans, DoReplan, Plant.SameEntities;
    ReplanCommits(site, s, now, recovery, planned, checkedAt);
    CopyNamesTheAgv(site, s);
    ReplanEntities(site, s);
    PlanAvoids(Plant.Capture(site, Plant.Counted(s.plant.world), now), s.intent,
      s.plant.world.agvs[s.plan.value.agv].node, s.plan.value.agv, planned.plan);
  }

  /** The scenario's blockage is on record as seen at `stopAt`, by a stop that committed then. */
  ghost predicate Noted(site: Site, w: Plant.World, stopAt: real) {
    var b := site.blockage;
    b.obstacle in w.obstacles && w.obstacles[b.obstacle] == Obstacle(b.node, b.confidence, stopAt, b.ttl, 1)
  }

  lemma StopNotesBlockage(site: Site, s: Session, id: Id, trigger: string, now: real)
    requires DoStop(site, s, id, trigger, now).1 == Done
    ensures Noted(site, DoStop(site, s, id, trigger, now).0.plant.world, now)
  {
  }

  /** The blockage that stopped the mission counts at a replan exactly when it was reported with confidence
      enough for a single observation and has not expired: the new route then avoids it. Otherwise the
      replan is made as if it had not been recorded, and may lead through it. */
  lemma {:induction false} ReplanHeedsBlockage(site: Site, s: Session, stopAt: real, now: real,
    recovery: Option<Recovery>, planned: Outcome, checkedAt: real)
    requires Inv(site, s) && Possible(site, s, Replan(now, recovery, planned, checkedAt))
    requires Noted(site, s.plant.world, stopAt) && DoReplan(site, s, now, recovery, planned, checkedAt).1 == Done
    ensures var b, snapshot := site.blockage, Plant.Capture(site, Plant.Counted(s.plant.world), now);
      var counts := b.confidence >= 0.9 && now <= stopAt + b.ttl;
      && planned.Planned? && (counts ==> b.node !in planned.plan.nodes[1..])
      && Avoided(snapshot) ==
         Avoided(snapshot.(obstacles := snapshot.obstacles - {b.obstacle})) + (if counts then {b.node} else {})
  {
    hide Inv, SafeRoute, Plans, DoReplan, Possible;
    ReplanAvoidsObstacles(site, s, now, recovery, planned, checkedAt);
    var b, snapshot := site.blockage, Plant.Capture(site, Plant.Counted(s.plant.world), now);
    AvoidedWithout(snapshot, b.obstacle);
    assert Blocks(snapshot.obstacles[b.obstacle], now) <==> b.confidence >= 0.9 && now <= stopAt + b.ttl;
    assert b.node in planned.plan.nodes[1..] ==>
      exists i :: 0 < i < |planned.plan.nodes| && planned.plan.nodes[i] == b.node;
  }

  lemma AvoidedWithout(snapshot: Snapshot, o: Id)
    requires o in snapshot.obstacles
    ensures Avoided(snapshot) == Avoided(snapshot.(obstacles := snapshot.obstacles - {o})) +
      (if Blocks(snapshot.obstacles[o], snapshot.capturedAt) then {snapshot.obstacles[o].node} else {})
  {
    var less := snapshot.(obstacles := snapshot.obstacles - {o});
    forall n | n in Avoided(snapshot)
      ensures n in Avoided(less) ||
        (Blocks(snapshot.obstacles[o], snapshot.capturedAt) && n == snapshot.obstacles[o].node)
    {
      if !(n in snapshot.nodes && OffLimits(snapshot.nodes[n].zone)) {
        var k :| k in snapshot.obstacles && Blocks(snapshot.obstacles[k], snapshot.capturedAt)
          && snapshot.obstacles[k].node == n;
        assert k != o ==> k in less.obstacles && less.obstacles[k] == snapshot.obstacles[k];
      }
    }
    forall n | n in Avoided(less) ensures n in Avoided(snapshot) {
      if !(n in less.nodes && OffLimits(less.nodes[n].zone)) {
        var k :| k in less.obstacles && Blocks(less.obstacles[k], less.capturedAt) && less.obstacles[k].node == n;
        assert k in snapshot.obstacles && snapshot.obstacles[k] == less.obstacles[k];
      }
    }
  }

  lemma PlanAvoids(snapshot: Snapshot, intent: Intent, start: Id, agv: Id, plan: Plan)
    requires Plans(snapshot, intent, Some(start), Some(agv), Planned(plan)) && intent.destination in snapshot.locations
    ensures plan.agv == agv && plan.nodes[0] == start && Last(plan.nodes) == snapshot.locations[intent.destination].node
    ensures forall o, i | o in snapshot.obstacles && 0 < i < |plan.nodes| ::
      Blocks(snapshot.obstacles[o], snapshot.capturedAt) ==> plan.nodes[i] != snapshot.obstacles[o].node
    ensures forall i :: 0 <= i < |plan.nodes| - 1 ==> Linked(snapshot.edges, plan.nodes, i)
  {
    PlanFollowsEdges(snapshot, intent, Some(start), Some(agv), plan);
    forall o | o in snapshot.obstacles && Blocks(snapshot.obstacles[o], snapshot.capturedAt)
      ensures snapshot.obstacles[o].node in Avoided(snapshot)
    {
    }
  }

  lemma ReplanEntities(site: Site, s: Session)
    requires Inv(site, s) && MayReplan(s)
    ensures s.plan.Some? && s.plan.value.agv in s.plant.world.agvs && s.intent.destination in s.plant.world.locations
    ensures Plant.OnMap(site, s.plant.world)
  {
    hide SafeRoute, Plans;
    PreparedFacts(site, s);
  }
}
