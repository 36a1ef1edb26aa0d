/** One mission session of mission_service.py: what each operation does to it, step by step, including
    every place where it raises and leaves the session as it then is.

    The provider, the clock and fresh identifiers are inputs of an operation; so is the outcome of the
    planner, which `Possible` ties to what the planner may return. Of the evidence trace, the spans
    for accepted and committed operations, workflow transitions and telemetry are kept. */
module Sessions {
  import opened Domain
  import opened Workflow
  import opened Planning
  import opened Safety
  import Plant

  type Site = Plant.Site
  type Mission = Plant.Mission

  datatype OperationName = PREPARE | APPROVE | REJECT | START | STOP | REPLAN | RESUME | OVERRIDE

  datatype Span =
    | Accepted(name: OperationName)
    | Transitioned(state: MissionStatus)
    | Telemetry(status: MissionStatus, node: Id)
    | Committed(name: OperationName, version: nat)

  /** What a motion is made on: the plan, the snapshot its proof judged, and the approval as checked at
      time `at`. */
  datatype Authority = Authority(plan: Plan, snapshot: Snapshot, approval: Approval, at: real)

  datatype Move = Move(node: Id, auth: Authority)

  /** A replan and its proof, which are filed together, with the snapshot they were made from. */
  datatype Replanned = Replanned(plan: Plan, proof: Proof, snapshot: Snapshot)

  /** The `moves` and the snapshot of a replan are history: the service keeps them only in its trace. */
  datatype Session = Session(
    plant: Plant.Plant, flow: Flow, intent: Intent,
    snapshot: Option<Snapshot>, plan: Option<Plan>, proposal: Option<Proposal>, proof: Option<Proof>,
    approval: Option<Approval>, mission: Option<Mission>,
    replan: Option<Replanned>, version: nat, trace: seq<Span>, moves: seq<Move>)
  {
    /** A transition that the trace records. */
    function Enter(target: MissionStatus): Session {
      this.(flow := flow.To(target), trace := trace + [Transitioned(target)])
    }

    /** A transition made just before raising, which the trace does not record. */
    function Abort(target: MissionStatus): Session { this.(flow := flow.To(target)) }

    /** A snapshot that raises has been counted all the same. */
    function CountSnapshot(): Session { this.(plant := plant.(world := Plant.Counted(plant.world))) }

    function Log(span: Span): Session { this.(trace := trace + [span]) }
  }

  datatype Recovery = Recovery(replans: bool, goal: Goal)

  datatype Operation =
    | Prepare(now: real, planned: Outcome, proposed: Option<Proposal>)
    | Approve(actor: Id, token: Id, missionId: Id, issuedAt: real, checkedAt: real)
    | Reject
    | Start(now: real)
    | Stop(trigger: string, now: real)
    | Replan(now: real, recovery: Option<Recovery>, planned: Outcome, checkedAt: real)
    | Resume(now: real)
    | Override
  {
    function Name(): OperationName {
      match this
      case Prepare(_, _, _) => PREPARE
      case Approve(_, _, _, _, _) => APPROVE
      case Reject => REJECT
      case Start(_) => START
      case Stop(_, _) => STOP
      case Replan(_, _, _, _) => REPLAN
      case Resume(_) => RESUME
      case Override => OVERRIDE
    }
  }

  datatype Result = Done | Raised(why: Why)

  datatype Why =
    | WrongState | OffMap | BadBlockage | NotLive | NoPlan | ProviderFailed | ProofFailed | ApprovalFailed
    | GoalNotPreserved | AdapterFailed

  function New(world: Plant.World, intent: Intent): Session {
    Session(Plant.Plant(world, Plant.Adapter(map[], map[])), FLOW_START, intent,
      None, None, None, None, None, None, None, 1, [], [])
  }

  // ---- prepare_proposal ----

  function Observe(site: Site, s: Session, now: real): Session {
    var world := Plant.Counted(s.plant.world);
    s.(plant := s.plant.(world := world), snapshot := Some(Plant.Capture(site, world, now))).Enter(OBSERVED)
  }

  predicate BothLive(s: Session) {
    s.intent.source in s.plant.world.locations && s.intent.destination in s.plant.world.locations
  }

  ghost function Judge(s3: Session, plan: Plan, snapshot: Snapshot, p: Proposal): (Session, Result) {
    var proof := RouteProof(s3.intent, plan, snapshot, p);
    var s4 := s3.(proof := Some(proof));
    if !proof.passed then (s4.Abort(REJECTED), Raised(ProofFailed)) else (s4.Enter(VERIFIED), Done)
  }

  ghost function Propose(s1: Session, plan: Plan, snapshot: Snapshot, proposed: Option<Proposal>): (Session, Result) {
    var s2 := s1.(plan := Some(plan)).Enter(PLANNED);
    if proposed.None? then (s2, Raised(ProviderFailed))
    else Judge(s2.(proposal := proposed).Enter(PROPOSED), plan, snapshot, proposed.value)
  }

  ghost function DoPrepare(site: Site, s: Session, now: real, planned: Outcome, proposed: Option<Proposal>)
    : (Session, Result)
  {
    if s.flow.current != INTENT then (s, Raised(WrongState))
    else if !Plant.OnMap(site, s.plant.world) then (s.CountSnapshot(), Raised(OffMap))
    else
      var s1 := Observe(site, s, now);
      if !BothLive(s1) then (s1.Abort(FAILED_SAFE), Raised(NotLive))
      else if !planned.Planned? then (s1, Raised(NoPlan))
      else Propose(s1, planned.plan, s1.snapshot.value, proposed)
  }

  // ---- approve and reject ----

  function NewMission(s: Session, missionId: Id): Mission
    requires s.proposal.Some? && s.plan.Some?
  {
    Plant.Mission(missionId, s.proposal.value.hash, GoalOf(s.intent), s.intent.pallet, s.intent.source,
      s.intent.destination, s.plan.value.agv, s.plan.value.nodes, s.plan.value.version, APPROVED, 1, 0)
  }

  function DoApprove(s: Session, actor: Id, token: Id, missionId: Id, issuedAt: real, checkedAt: real)
    : (Session, Result)
  {
    if s.flow.current != VERIFIED || s.proposal.None? then (s, Raised(WrongState))
    else
      var approval := IssueApproval(token, s.proposal.value.hash, GoalOf(s.intent), actor, issuedAt);
      if s.proof.None? then (s, Raised(WrongState))
      else
        var proof := BindApproval(s.proof.value, s.proposal.value, approval, checkedAt);
        var s1 := s.(proof := Some(proof));
        if !proof.passed then (s1, Raised(ApprovalFailed))
        else
          var s2 := s1.(approval := Some(approval)).Enter(APPROVED);
          if s.plan.None? then (s2, Raised(WrongState))
          else (s2.(mission := Some(NewMission(s2, missionId))), Done)
  }

  function DoReject(s: Session): (Session, Result) {
    if s.flow.current != VERIFIED then (s, Raised(WrongState)) else (s.Enter(REJECTED), Done)
  }

  // ---- start ----

  /** The session after the adapter moved the AGV. */
  function Moved(s: Session, plant: Plant.Plant, m: Mission, auth: Authority): Session {
    Advanced(s.(moves := s.moves + [Move(Position(plant, m), auth)]), plant, m)
  }

  function Position(plant: Plant.Plant, m: Mission): Id {
    if m.agv in plant.world.agvs then plant.world.agvs[m.agv].node else 0
  }

  /** The same for a motion that no plan and snapshot on file account for. */
  function Advanced(s: Session, plant: Plant.Plant, m: Mission): Session {
    s.(plant := plant, mission := Some(m)).Log(Telemetry(m.status, Position(plant, m)))
  }

  /** An approved session has its plan and snapshot filed, so that its motion always has an authority. */
  function DoStart(site: Site, s: Session, id: Id, now: real): (Session, Result) {
    if s.mission.None? || s.approval.None? || s.proposal.None? then (s, Raised(WrongState))
    else if s.flow.current != APPROVED then (s, Raised(WrongState))
    else if !ValidFor(s.approval.value, s.proposal.value, now) then (s.Abort(FAILED_SAFE), Raised(ApprovalFailed))
    else
      match Plant.Start(site, s.plant, s.mission.value)
      case None => (s.(plant := Plant.StartLeft(s.plant, s.mission.value)), Raised(AdapterFailed))
      case Some((plant, started)) =>
        var s1 := s.(plant := plant, mission := Some(started)).Enter(EXECUTING);
        match Plant.Advance(site, plant, id)
        case None => (s1.(plant := Plant.AdvanceLeft(site, plant, id)), Raised(AdapterFailed))
        case Some((plant', m)) =>
          if s.plan.None? || s.snapshot.None? then (Advanced(s1, plant', m), Done)
          else (Moved(s1, plant', m, Authority(s.plan.value, s.snapshot.value, s.approval.value, now)), Done)
  }

  // ---- stop ----

  function DoStop(site: Site, s: Session, id: Id, trigger: string, now: real): (Session, Result) {
    if s.flow.current != EXECUTING then (s, Raised(WrongState))
    else if !Plant.BlockageOk(site) then (s, Raised(BadBlockage))
    else
      var s1 := s.(plant := s.plant.(world := Plant.Blocked(site, s.plant.world, now))).Enter(BLOCKED);
      match (if trigger == "" then None else Plant.LocalStop(s1.plant, id))
      case None =>
        (if trigger == "" then s1 else s1.(plant := Plant.LocalStopLeft(s1.plant, id)), Raised(AdapterFailed))
      case Some(plant) =>
        var s2 := s1.(plant := plant);
        if s.mission.Some? && s.mission.value.id !in plant.adapter.missions then (s2, Raised(AdapterFailed))
        else
          var mission := if s.mission.Some? then Some(plant.adapter.missions[s.mission.value.id]) else None;
          (s2.(mission := mission).Enter(SAFE_STOP), Done)
  }

  // ---- replan ----

  predicate MayReplan(s: Session) {
    s.flow.current == SAFE_STOP && s.mission.Some? && s.proposal.Some? && s.approval.Some?
  }

  predicate Preserves(s: Session, r: Recovery) { r.replans && r.goal == GoalOf(s.intent) }

  /** The new route is judged with a proposal issued anew for it and sealed with the first approval. */
  ghost function Equivalent(s2: Session, plan: Plan, snapshot: Snapshot, checkedAt: real): (Session, Result)
    requires s2.proposal.Some? && s2.approval.Some?
  {
    var route := RouteProof(s2.intent, plan, snapshot,
      IssueProposal(s2.proposal.value.id, s2.intent, plan, snapshot.id, 0));
    var proof := BindApproval(route, s2.proposal.value, s2.approval.value, checkedAt);
    var s3 := s2.(replan := Some(Replanned(plan, proof, snapshot)));
    if !proof.passed then (s3.Abort(FAILED_SAFE), Raised(ProofFailed))
    else (s3.Enter(VERIFIED), Done)
  }

  ghost function DoReplan(site: Site, s: Session, now: real, recovery: Option<Recovery>, planned: Outcome,
    checkedAt: real)
    : (Session, Result)
  {
    if !MayReplan(s) then (s, Raised(WrongState))
    else
      var s1 := s.CountSnapshot();
      var snapshot := Plant.Capture(site, s1.plant.world, now);
      if !Plant.OnMap(site, s.plant.world) then (s1, Raised(OffMap))
      else if recovery.None? then (s1, Raised(ProviderFailed))
      else if !Preserves(s, recovery.value) then (s1.Abort(FAILED_SAFE), Raised(GoalNotPreserved))
      else
        var s2 := s1.Enter(REPLANNING);
        if !planned.Planned? then (s2, Raised(NoPlan))
        else Equivalent(s2, planned.plan, snapshot, checkedAt)
  }

  // ---- resume_and_complete ----

  predicate MayResume(s: Session, now: real) {
    && s.flow.current == VERIFIED && s.mission.Some? && s.replan.Some? && s.replan.value.proof.passed
    && s.approval.Some? && s.proposal.Some? && ValidFor(s.approval.value, s.proposal.value, now)
  }

  /** How far an executing mission can still be advanced. */
  function Remaining(p: Plant.Plant, id: Id): nat {
    if id in p.adapter.missions && p.adapter.missions[id].status == EXECUTING then
      var m := p.adapter.missions[id];
      if m.index < |m.route| then 1 + |m.route| - m.index else 1
    else 0
  }

  lemma AdvanceProgresses(site: Site, p: Plant.Plant, id: Id)
    ensures Plant.Advance(site, p, id).Some? ==> Remaining(Plant.Advance(site, p, id).value.0, id) < Remaining(p, id)
  {
  }

  /** The loop that advances the mission until it is no longer executing. */
  function Drive(site: Site, s: Session, id: Id, auth: Authority): (Session, Result)
    decreases Remaining(s.plant, id)
  {
    if s.mission.None? || s.mission.value.status != EXECUTING then (s, Done)
    else
      match Plant.Advance(site, s.plant, id)
      case None => (s.(plant := Plant.AdvanceLeft(site, s.plant, id)), Raised(AdapterFailed))
      case Some((plant, m)) => Drive(site, Moved(s, plant, m, auth), id, auth)
  }

  /** One turn of the loop. */
  lemma DriveTurn(site: Site, s: Session, id: Id, auth: Authority)
    ensures s.mission.None? || s.mission.value.status != EXECUTING ==> Drive(site, s, id, auth) == (s, Done)
    ensures s.mission.Some? && s.mission.value.status == EXECUTING ==>
      Drive(site, s, id, auth) == match Plant.Advance(site, s.plant, id)
        case None => (s.(plant := Plant.AdvanceLeft(site, s.plant, id)), Raised(AdapterFailed))
        case Some((plant, m)) => Drive(site, Moved(s, plant, m, auth), id, auth)
  {
  }

  function ResumeAuthority(s: Session, now: real): Authority
    requires s.replan.Some? && s.approval.Some?
  {
    Authority(s.replan.value.plan, s.replan.value.snapshot, s.approval.value, now)
  }

  function DoResume(site: Site, s: Session, id: Id, now: real): (Session, Result) {
    if !MayResume(s, now) then (s, Raised(WrongState))
    else
      match Plant.ReplaceRoute(s.plant, id, s.replan.value.plan)
      case None => (s.(plant := Plant.ReplaceRouteLeft(s.plant, id, s.replan.value.plan)), Raised(AdapterFailed))
      case Some((plant, m)) =>
        var s1 := s.(plant := plant, mission := Some(m)).Enter(EXECUTING);
        var (s2, result) := Drive(site, s1, id, ResumeAuthority(s, now));
        if result.Raised? then (s2, result) else (s2.Enter(COMPLETED), Done)
  }

  // ---- override_to_failed_safe ----

  function DoOverride(s: Session): (Session, Result) {
    if s.flow.current != SAFE_STOP && s.flow.current != VERIFIED then (s, Raised(WrongState))
    else (s.(approval := None).Enter(FAILED_SAFE), Done)
  }

  /** The body of an operation, between its acceptance and its commit. `id` is the mission named in
      the call. */
  ghost function Perform(site: Site, s: Session, id: Id, op: Operation): (Session, Result) {
    match op
    case Prepare(now, planned, proposed) => DoPrepare(site, s, now, planned, proposed)
    case Approve(actor, token, missionId, issuedAt, checkedAt) =>
      DoApprove(s, actor, token, missionId, issuedAt, checkedAt)
    case Reject => DoReject(s)
    case Start(now) => DoStart(site, s, id, now)
    case Stop(trigger, now) => DoStop(site, s, id, trigger, now)
    case Replan(now, recovery, planned, checkedAt) => DoReplan(site, s, now, recovery, planned, checkedAt)
    case Resume(now) => DoResume(site, s, id, now)
    case Override => DoOverride(s)
  }

  /** The same operation with another planner outcome. */
  function Decided(op: Operation, planned: Outcome): Operation {
    match op
    case Prepare(now, _, proposed) => Prepare(now, planned, proposed)
    case Replan(now, recovery, _, checkedAt) => Replan(now, recovery, planned, checkedAt)
    case _ => op
  }

  /** The planner outcome given with an operation is one the planner can return there. */
  ghost predicate Possible(site: Site, s: Session, op: Operation) {
    match op
    case Prepare(now, planned, _) =>
      s.flow.current == INTENT && Plant.OnMap(site, s.plant.world) && BothLive(s) ==>
        Plans(Plant.Capture(site, Plant.Counted(s.plant.world), now), s.intent, None, None, planned)
    case Replan(now, recovery, planned, _) =>
      MayReplan(s) && Plant.OnMap(site, s.plant.world) && recovery.Some? && Preserves(s, recovery.value) &&
        s.mission.value.agv in s.plant.world.agvs ==>
        Plans(Plant.Capture(site, Plant.Counted(s.plant.world), now), s.intent,
          Some(s.plant.world.agvs[s.mission.value.agv].node), Some(s.mission.value.agv), planned)
    case _ => true
  }
}
