/** The mission that the reference scenario is about, prepared, approved, started, stopped by a
    blockage, replanned and resumed, as six operations on one session. */
module HeroRun {
  import opened Domain
  import opened Workflow
  import opened RoutePlanner
  import opened Planning
  import opened Safety
  import Plant
  import opened Sessions
  import opened SessionInvariant
  import opened SessionSteps
  import opened SessionEffects
  import opened SessionOutcomes
  import opened SessionMotion
  import opened Service
  import opened ServiceRuns

  /** What the outside world contributes: clock readings, new identifiers, plans and the stop. */
  datatype Hero = Hero(
    key: Id, prepareAt: real, plan: Plan, proposal: Proposal,
    actor: Id, token: Id, missionId: Id, issuedAt: real, sealedAt: real,
    startAt: real, trigger: string, stopAt: real, replanAt: real, replan: Plan, checkedAt: real, resumeAt: real)

  function Taken(site: Site, w: Plant.World, now: real): Snapshot { Plant.Capture(site, Plant.Counted(w), now) }

  predicate Lasts(h: Hero, at: real) { h.issuedAt <= at < h.issuedAt + APPROVAL_LIFETIME }

  /** A safe plan, faithfully proposed, with every AGV on the map. */
  ghost predicate Promising(site: Site, w: Plant.World, intent: Intent, h: Hero) {
    && Plant.OnMap(site, w) && intent.source in w.locations && intent.destination in w.locations
    && Plans(Taken(site, w, h.prepareAt), intent, None, None, Planned(h.plan))
    && SafeRoute(intent, h.plan, Taken(site, w, h.prepareAt))
    && h.proposal == IssueProposal(h.proposal.id, intent, h.plan, Taken(site, w, h.prepareAt).id, h.proposal.hash)
  }

  /** From world `w` the stopped AGV has a safe way on. */
  ghost predicate Recoverable(site: Site, w: Plant.World, intent: Intent, h: Hero) {
    && h.plan.agv in w.agvs
    && Plans(Taken(site, w, h.replanAt), intent, Some(w.agvs[h.plan.agv].node), Some(h.plan.agv), Planned(h.replan))
    && SafeRoute(intent, h.replan, Taken(site, w, h.replanAt))
  }

  /** Where some of the operations begin: with a new session, or with a mission under way, which may
      stand stopped. */
  datatype Outset = Anew(world: Plant.World) | Midway(world: Plant.World)

  /** The selected AGV was moved to the second node of its route. */
  function MovedOn(site: Site, w: Plant.World, h: Hero): Plant.World
    requires h.plan.agv in w.agvs
  {
    var second := h.plan.nodes[1];
    Plant.SetAgv(w, h.plan.agv, w.agvs[h.plan.agv].(
      node := second, pose := Plant.PoseAt(site, second), status := AgvExecuting, mission := Some(h.missionId)))
  }

  /** The world with the mission under way. */
  function DrivingWorld(site: Site, from: Outset, h: Hero): Plant.World
    requires h.plan.agv in from.world.agvs
  {
    if from.Midway? then from.world else MovedOn(site, Plant.Counted(from.world), h)
  }

  /** The world after the stop: the blockage is recorded, the selected AGV stands stopped, and nothing
      else has changed. */
  function StoppedWorld(site: Site, from: Outset, h: Hero): Plant.World
    requires h.plan.agv in from.world.agvs
  {
    var w := Plant.Blocked(site, DrivingWorld(site, from, h), h.stopAt);
    Plant.SetAgv(w, h.plan.agv, w.agvs[h.plan.agv].(status := AgvStopped))
  }

  /** What a stage needs: an approval that lasts, a first advance that does not arrive, a stop with a
      trigger and a blockage that can be recorded, and a safe way on for the stopped AGV. */
  ghost predicate Fit(site: Site, h: Hero, from: Outset, stage: nat) {
    match stage
    case 1 => Lasts(h, h.sealedAt)
    case 2 => Lasts(h, h.startAt) && |h.plan.nodes| >= 3
    case 3 => h.trigger != "" && Plant.BlockageOk(site)
    case 4 =>
      && Lasts(h, h.checkedAt) && h.plan.agv in from.world.agvs
      && Recoverable(site, StoppedWorld(site, from, h), h.proposal.goal, h)
    case 5 => Lasts(h, h.resumeAt)
    case _ => true
  }

  function OperationAt(h: Hero, stage: nat): Operation
    requires stage < 6
  {
    match stage
    case 0 => Prepare(h.prepareAt, Planned(h.plan), Some(h.proposal))
    case 1 => Approve(h.actor, h.token, h.missionId, h.issuedAt, h.sealedAt)
    case 2 => Start(h.startAt)
    case 3 => Stop(h.trigger, h.stopAt)
    case 4 => Replan(h.replanAt, Some(Recovery(true, GoalOf(h.proposal.goal))), Planned(h.replan), h.checkedAt)
    case _ => Resume(h.resumeAt)
  }

  /** The plan, the proposal and their proof are filed. */
  ghost predicate PapersFiled(s: Session, h: Hero) {
    && s.plan == Some(h.plan) && s.proposal == Some(h.proposal) && h.proposal.goal == s.intent && s.proof.Some?
    && forall c :: c in s.proof.value.checks && c.name != ApprovalIntegrity ==> c.passed
  }

  /** So is the approval, with a mission. */
  ghost predicate Carries(s: Session, h: Hero) {
    && PapersFiled(s, h) && s.mission.Some?
    && s.approval == Some(IssueApproval(h.token, h.proposal.hash, GoalOf(s.intent), h.actor, h.issuedAt))
  }

  ghost predicate UnderWay(s: Session, h: Hero) {
    HasExecuted(s) && Dispatched(s) && Carries(s, h) && TheMission(s).id == h.missionId
  }

  /** The session after `stage` of the six operations. */
  ghost predicate AtStage(site: Site, s: Session, h: Hero, from: Outset, stage: nat) {
    match stage
    case 0 => s.flow.current == INTENT && from == Anew(s.plant.world) && Promising(site, s.plant.world, s.intent, h)
    case 1 =>
      && s.flow.current == VERIFIED && !HasExecuted(s) && PapersFiled(s, h)
      && from.Anew? && s.plant.world == Plant.Counted(from.world)
    case 2 =>
      && s.flow.current == APPROVED && !HasExecuted(s) && Carries(s, h) && s.mission.value.id == h.missionId
      && from.Anew? && s.plant.world == Plant.Counted(from.world)
    case 3 =>
      && s.flow.current == EXECUTING && UnderWay(s, h) && h.plan.agv in from.world.agvs
      && s.plant.world == DrivingWorld(site, from, h)
    case 4 =>
      && s.flow.current == SAFE_STOP && UnderWay(s, h) && h.plan.agv in from.world.agvs
      && s.plant.world == StoppedWorld(site, from, h)
    case 5 =>
      && s.flow.current == VERIFIED && UnderWay(s, h)
      && s.replan.Some? && s.replan.value.proof.passed && s.replan.value.plan == h.replan
      && h.plan.agv in from.world.agvs && s.plant.world == Plant.Counted(StoppedWorld(site, from, h))
    case _ => s.flow.current == COMPLETED && Delivered(site, s)
  }

  // ---- The six steps ----

  lemma Prepares(site: Site, s: Session, h: Hero, from: Outset)
    requires Inv(site, s) && AtStage(site, s, h, from, 0)
    ensures var (t, result) := Perform(site, s, h.missionId, OperationAt(h, 0));
      result == Done && AtStage(site, t, h, from, 1)
  {
    hide Inv, SafeRoute, Plans, RouteProof;
    var snapshot := Taken(site, s.plant.world, h.prepareAt);
    PlanFollowsEdges(snapshot, s.intent, None, None, h.plan);
    PrepareCommits(site, s, h.prepareAt, Planned(h.plan), Some(h.proposal));
    NotYetExecuted(site, s);
    ProofListsChecks(s.intent, h.plan, snapshot, h.proposal);
  }

  lemma ProofListsChecks(intent: Intent, plan: Plan, snapshot: Snapshot, p: Proposal)
    ensures RouteProof(intent, plan, snapshot, p).passed == AllPassed(RouteProof(intent, plan, snapshot, p).checks)
  {
  }

  lemma NotYetExecuted(site: Site, s: Session)
    requires Inv(site, s) && s.flow.current == INTENT
    ensures !HasExecuted(s)
  {
  }

  /** An approval of filed papers, the first or a renewed one, within its lifetime. */
  lemma Approves(site: Site, s: Session, h: Hero, actor: Id, token: Id, missionId: Id, issuedAt: real, sealedAt: real)
    requires Inv(site, s) && s.flow.current == VERIFIED && PapersFiled(s, h)
    requires issuedAt <= sealedAt < issuedAt + APPROVAL_LIFETIME
    ensures var (t, result) := DoApprove(s, actor, token, missionId, issuedAt, sealedAt);
      && result == Done && t.flow.current == APPROVED && (HasExecuted(t) <==> HasExecuted(s)) && PapersFiled(t, h)
      && t.approval == Some(IssueApproval(token, h.proposal.hash, GoalOf(s.intent), actor, issuedAt))
      && t.mission.Some? && t.mission.value.id == missionId && t.plant == s.plant
  {
    hide Inv, IssueApproval;
    ApproveCommits(site, s, actor, token, missionId, issuedAt, sealedAt);
    var a := IssueApproval(token, s.proposal.value.hash, GoalOf(s.intent), actor, issuedAt);
    SealKeepsChecks(s.proof.value, s.proposal.value, a, sealedAt);
  }

  lemma SealKeepsChecks(proof: Proof, p: Proposal, a: Approval, at: real)
    requires forall c :: c in proof.checks && c.name != ApprovalIntegrity ==> c.passed
    ensures forall c :: c in BindApproval(proof, p, a, at).checks && c.name != ApprovalIntegrity ==> c.passed
  {
    var rest := Without(proof.checks, ApprovalIntegrity);
    assert forall c :: c in BindApproval(proof, p, a, at).checks ==> c in rest || c.name == ApprovalIntegrity;
  }

  lemma Starts(site: Site, s: Session, h: Hero, from: Outset)
    requires Inv(site, s) && AtStage(site, s, h, from, 2) && Fit(site, h, from, 2)
    ensures var (t, result) := Perform(site, s, h.missionId, OperationAt(h, 2));
      result == Done && AtStage(site, t, h, from, 3)
  {
    hide Inv, Dispatched, SafeRoute, Plant.PoseAt;
    PerformKeeps(site, s, h.missionId, OperationAt(h, 2));
    FirstStart(site, s, h.missionId, h.startAt);
    StartKeepsApproval(site, s, h.missionId, h.startAt);
    ExecutingFacts(site, DoStart(site, s, h.missionId, h.startAt).0);
    StartedWorld(site, s, h);
  }

  lemma StartKeepsApproval(site: Site, s: Session, id: Id, now: real)
    requires s.flow.current == APPROVED && s.approval.Some? && s.proposal.Some?
    requires ValidFor(s.approval.value, s.proposal.value, now)
    ensures var t := DoStart(site, s, id, now).0;
      && t.approval == s.approval && t.proposal == s.proposal && t.plan == s.plan && t.intent == s.intent
      && t.proof == s.proof && (s.mission.Some? ==> t.mission.Some?)
  {
    hide Plant.Start, Plant.Advance, Plant.StartLeft, Plant.AdvanceLeft;
  }

  lemma ExecutingFacts(site: Site, s: Session)
    requires Inv(site, s) && s.flow.current == EXECUTING
    ensures HasExecuted(s) && s.mission.Some?
  {
  }

  lemma StartedWorld(site: Site, s: Session, h: Hero)
    requires Inv(site, s) && s.flow.current == APPROVED && !HasExecuted(s) && Carries(s, h)
    requires s.mission.value.id == h.missionId && Lasts(h, h.startAt) && |h.plan.nodes| >= 3
    ensures h.plan.agv in s.plant.world.agvs
    ensures DoStart(site, s, h.missionId, h.startAt).0.plant.world == MovedOn(site, s.plant.world, h)
  {
    hide SafeRoute, Plans, FlowOk, ApprovedFirst, MovesOk, TraceOk, CargoOk, ReplanOk;
    AdapterTakes(site, s);
    PreparedFacts(site, s);
    var (plant, m) := Plant.Start(site, s.plant, s.mission.value).value;
    assert m.route == h.plan.nodes && m.agv == h.plan.agv && plant.adapter.missions[h.missionId] == m;
    var second := s.plan.value.nodes[1];
    assert second in s.plan.value.nodes;
    assert second in site.nodes;
    assert m.status == EXECUTING && m.agv in plant.world.agvs;
    assert Plant.NextIndex(m) == 1;
    assert Plant.CanAdvance(site, plant, h.missionId);
    var (plant', m') := Plant.Advance(site, plant, h.missionId).value;
    assert DoStart(site, s, h.missionId, h.startAt).0.plant == plant';
  }

  lemma Stops(site: Site, s: Session, h: Hero, from: Outset)
    requires Inv(site, s) && AtStage(site, s, h, from, 3) && Fit(site, h, from, 3)
    ensures var (t, result) := Perform(site, s, h.missionId, OperationAt(h, 3));
      result == Done && AtStage(site, t, h, from, 4)
  {
    hide Inv, Grows, MovesLogged, SameJob, StatusOk, MovedOn;
    StopEvolves(site, s, h.missionId, h.trigger, h.stopAt);
    StopCommits(site, s, h.missionId, h.trigger, h.stopAt);
    ExecutingFacts(site, s);
    StopKeepsPapers(site, s, h.missionId, h.trigger, h.stopAt);
    StoppedPlant(site, s, h, from);
  }

  lemma StopKeepsPapers(site: Site, s: Session, id: Id, trigger: string, now: real)
    requires DoStop(site, s, id, trigger, now).1 == Done
    ensures var t := DoStop(site, s, id, trigger, now).0;
      && t.flow.current == SAFE_STOP && t.approval == s.approval && t.proposal == s.proposal && t.plan == s.plan
      && t.proof == s.proof && t.intent == s.intent && (s.mission.Some? ==> t.mission.Some?)
  {
    hide Plant.LocalStop, Plant.LocalStopLeft, Plant.Blocked;
  }

  lemma StoppedPlant(site: Site, s: Session, h: Hero, from: Outset)
    requires s.flow.current == EXECUTING && UnderWay(s, h) && h.plan.agv in from.world.agvs
    requires s.plant.world == DrivingWorld(site, from, h)
    requires DoStop(site, s, h.missionId, h.trigger, h.stopAt).1 == Done
    ensures DoStop(site, s, h.missionId, h.trigger, h.stopAt).0.plant.world == StoppedWorld(site, from, h)
  {
    hide Plant.PoseAt, StatusOk;
    assert DoStop(site, s, h.missionId, h.trigger, h.stopAt).0.plant.world.agvs == StoppedWorld(site, from, h).agvs;
  }

  lemma Replans(site: Site, s: Session, h: Hero, from: Outset)
    requires Inv(site, s) && AtStage(site, s, h, from, 4) && Fit(site, h, from, 4)
    ensures Possible(site, s, OperationAt(h, 4))
    ensures var (t, result) := Perform(site, s, h.missionId, OperationAt(h, 4));
      result == Done && AtStage(site, t, h, from, 5)
  {
    hide Inv, Grows, MovesLogged, SameJob, StatusOk, SafeRoute, Plans, RouteProof, BindApproval, StoppedWorld;
    var op := OperationAt(h, 4);
    CopyNamesTheAgv(site, s);
    PlanFollowsEdges(Taken(site, s.plant.world, h.replanAt), s.intent,
      Some(s.plant.world.agvs[h.plan.agv].node), Some(h.plan.agv), h.replan);
    ReplanCommits(site, s, h.replanAt, op.recovery, op.planned, h.checkedAt);
    PerformEvolves(site, s, h.missionId, op);
  }

  lemma Resumes(site: Site, s: Session, h: Hero, from: Outset)
    requires Inv(site, s) && Standing(s) && AtStage(site, s, h, from, 5) && Fit(site, h, from, 5)
    ensures var (t, result) := Perform(site, s, h.missionId, OperationAt(h, 5));
      result == Done && AtStage(site, t, h, from, 6)
  {
    hide Inv, SafeRoute, Plans, DoResume, Delivered;
    ResumeCommits(site, s, h.missionId, h.resumeAt);
    ResumeDelivers(site, s, h.missionId, h.resumeAt);
  }

  // ---- Each of them as an attempt ----

  lemma BookkeepingKeepsStage(site: Site, s: Session, t: Session, h: Hero, from: Outset, stage: nat)
    requires AtStage(site, s, h, from, stage) && Bookkeeping(s, t) && stage < 6
    ensures AtStage(site, t, h, from, stage)
  {
    hide Promising, MovedOn, SafeRoute, Plans;
  }

  lemma PossibleAtStage(site: Site, s: Session, h: Hero, from: Outset, stage: nat)
    requires Inv(site, s) && stage < 6 && AtStage(site, s, h, from, stage) && Fit(site, h, from, stage)
    ensures Possible(site, s, OperationAt(h, stage))
  {
    hide Inv, SafeRoute, Plans, Perform, UnderWay, Carries, PapersFiled;
    if stage == 4 {
      Replans(site, s, h, from);
    }
  }

  lemma Performs(site: Site, s: Session, h: Hero, from: Outset, stage: nat)
    requires Inv(site, s) && Standing(s) && stage < 6 && AtStage(site, s, h, from, stage) && Fit(site, h, from, stage)
    ensures var (t, result) := Perform(site, s, h.missionId, OperationAt(h, stage));
      result == Done && AtStage(site, t, h, from, stage + 1)
  {
    hide Inv, DoPrepare, DoStart, DoStop, DoReplan, DoResume, SafeRoute, Plans, StoppedWorld, MovedOn, Delivered;
    match stage
    case 0 => Prepares(site, s, h, from);
    case 1 => Approves(site, s, h, h.actor, h.token, h.missionId, h.issuedAt, h.sealedAt);
    case 2 => Starts(site, s, h, from);
    case 3 => Stops(site, s, h, from);
    case 4 => Replans(site, s, h, from);
    case _ => Resumes(site, s, h, from);
  }

  lemma FinishedStage(site: Site, t: Session, h: Hero, from: Outset, stage: nat, name: OperationName)
    requires AtStage(site, t, h, from, stage) && SoundSession(site, t) && stage <= 6
    ensures AtStage(site, Finish(t, name), h, from, stage)
  {
    hide Inv, AtStage, Evolves, Delivered;
    FinishKeeps(site, t, name);
    if stage < 6 {
      BookkeepingKeepsStage(site, t, Finish(t, name), h, from, stage);
    } else {
      DeliveredAtLast(site, t, Finish(t, name), h, from);
    }
  }

  lemma DeliveredAtLast(site: Site, s: Session, t: Session, h: Hero, from: Outset)
    requires AtStage(site, s, h, from, 6) && Bookkeeping(s, t) && SoundSession(site, t)
    ensures AtStage(site, t, h, from, 6)
  {
    hide Inv, Delivered, MotionOk;
  }

  /** Each stage is left by its operation, which commits. */
  lemma {:induction false} StageCommits(site: Site, s: Session, h: Hero, from: Outset, stage: nat)
    requires SessionOk(site, s) && stage < 6 && AtStage(site, s, h, from, stage) && Fit(site, h, from, stage)
    ensures Possible(site, s, OperationAt(h, stage))
    ensures var (t, result) := Attempt(site, s, h.missionId, OperationAt(h, stage));
      result == Done && AtStage(site, t, h, from, stage + 1)
  {
    hide Inv, CompletedOk, TraceExact, MotionOk, Perform, Possible, AtStage, Evolves, Standing, Fit;
    var op := OperationAt(h, stage);
    var s1 := s.Log(Accepted(op.Name()));
    LogKeeps(site, s, Accepted(op.Name()));
    BookkeepingKeepsStage(site, s, s1, h, from, stage);
    PossibleAtStage(site, s, h, from, stage);
    SamePossible(site, s, s1, op);
    Performs(site, s1, h, from, stage);
    PerformIsSound(site, s1, h.missionId, op);
    FinishedStage(site, Perform(site, s1, h.missionId, op).0, h, from, stage + 1, op.Name());
  }
}
