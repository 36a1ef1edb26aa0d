/** Every operation keeps the session invariant, wherever it raises. */
module SessionSteps {
  import opened Domain
  import opened Workflow
  import opened RoutePlanner
  import opened Planning
  import opened Safety
  import Plant
  import opened Sessions
  import opened SessionInvariant

  /** `t` is `s` after a transition and nothing else. */
  ghost predicate Steps(s: Session, t: Session, target: MissionStatus) {
    t == s.Enter(target) || (t == s.Abort(target) && target in {FAILED_SAFE, REJECTED})
  }

  lemma MovesKept(s: Session, t: Session)
    requires MovesOk(s) && t.moves == s.moves && t.intent == s.intent
    requires t.plan == s.plan && t.proposal == s.proposal
    ensures MovesOk(t)
  {
    forall i | 0 <= i < |t.moves| ensures Authorised(t, t.moves[i]) {
      assert Authorised(s, s.moves[i]);
    }
  }

  lemma AdapterKept(s: Session, t: Session, target: MissionStatus)
    requires AdapterOk(s) && CopyOk(s) && Steps(s, t, target) && (HasExecuted(t) <==> HasExecuted(s))
    requires HasExecuted(s) ==> StatusOk(target, TheMission(s).status)
    requires target == EXECUTING ==> s.mission.Some? && s.mission.value.status != APPROVED
    ensures AdapterOk(t) && CopyOk(t)
  {
  }

  lemma PlanKept(site: Site, s: Session, t: Session, target: MissionStatus)
    requires HistoryOk(s) && StageOk(site, s) && CargoOk(s) && ReplanOk(site, s)
    requires Steps(s, t, target) && target in Allowed(s.flow.current) && target != INTENT
    requires HasExecuted(t) <==> HasExecuted(s)
    requires target in {VERIFIED, APPROVED, EXECUTING, BLOCKED, SAFE_STOP, REPLANNING, COMPLETED} ==>
      Prepared(site, s) && s.proof.Some?
    ensures StageOk(site, t) && CargoOk(t) && ReplanOk(site, t)
  {
    hide SafeRoute, Plans, ApprovedFirst;
  }

  /** A transition other than into an execution, possible once what the new state stands for holds. */
  lemma EnterKeeps(site: Site, s: Session, t: Session, target: MissionStatus)
    requires Inv(site, s) && target in Allowed(s.flow.current) && target != EXECUTING && target != INTENT
    requires Steps(s, t, target)
    requires target in {VERIFIED, APPROVED, BLOCKED, SAFE_STOP, REPLANNING, COMPLETED} ==>
      Prepared(site, s) && s.proof.Some?
    requires target in {BLOCKED, SAFE_STOP, REPLANNING, COMPLETED} ==> HasExecuted(s)
    requires HasExecuted(s) ==> StatusOk(target, TheMission(s).status)
    ensures Inv(site, t) && (HasExecuted(t) <==> HasExecuted(s))
  {
    HistoryEnters(s, t, target);
    TraceEnters(s, t, target);
    AdapterKept(s, t, target);
    PlanKept(site, s, t, target);
    MovesKept(s, t);
  }

  lemma RejectKeeps(site: Site, s: Session)
    requires Inv(site, s)
    ensures Inv(site, DoReject(s).0)
  {
    hide SafeRoute, Plans, ApprovedFirst, FollowsTable;
    if s.flow.current == VERIFIED {
      EnterKeeps(site, s, s.Enter(REJECTED), REJECTED);
    }
  }

  lemma OverrideKeeps(site: Site, s: Session)
    requires Inv(site, s)
    ensures Inv(site, DoOverride(s).0)
  {
    hide SafeRoute, Plans, ApprovedFirst, FollowsTable;
    if s.flow.current == SAFE_STOP || s.flow.current == VERIFIED {
      var s1 := s.(approval := None);
      SameButPapers(site, s, s1);
      EnterKeeps(site, s1, s1.Enter(FAILED_SAFE), FAILED_SAFE);
    }
  }

  /** The invariant does not look at approvals, nor at which proof is held. */
  lemma SameButPapers(site: Site, s: Session, t: Session)
    requires Inv(site, s) && t == s.(approval := t.approval, proof := t.proof)
    requires t.proof.Some? <==> s.proof.Some?
    ensures Inv(site, t)
  {
    MovesKept(s, t);
  }

  lemma MissionFiled(site: Site, s: Session, missionId: Id)
    requires Inv(site, s) && s.flow.current == APPROVED && s.proposal.Some? && s.plan.Some?
    ensures Inv(site, s.(mission := Some(NewMission(s, missionId))))
  {
    hide SafeRoute, Plans, FlowOk, ApprovedFirst;
    MovesKept(s, s.(mission := Some(NewMission(s, missionId))));
  }

  /** A verified session has what an approval needs. */
  lemma VerifiedFacts(site: Site, s: Session)
    requires Inv(site, s) && s.flow.current == VERIFIED
    ensures Prepared(site, s) && s.proof.Some? &&
      (HasExecuted(s) ==> Dispatched(s) && TheMission(s).status == SAFE_STOP)
  {
    hide SafeRoute, Plans, FlowOk, ApprovedFirst;
  }

  lemma ApprovedKeeps(site: Site, s: Session)
    requires Inv(site, s) && s.flow.current == VERIFIED
    ensures Inv(site, s.Enter(APPROVED))
  {
    hide Core, ReplanOk;
    VerifiedFacts(site, s);
    EnterKeeps(site, s, s.Enter(APPROVED), APPROVED);
  }

  lemma ApproveKeeps(site: Site, s: Session, actor: Id, token: Id, missionId: Id, issuedAt: real, checkedAt: real)
    requires Inv(site, s)
    ensures Inv(site, DoApprove(s, actor, token, missionId, issuedAt, checkedAt).0)
  {
    hide Inv;
    if s.flow.current == VERIFIED {
      VerifiedFacts(site, s);
      var approval := IssueApproval(token, s.proposal.value.hash, GoalOf(s.intent), actor, issuedAt);
      var proof := BindApproval(s.proof.value, s.proposal.value, approval, checkedAt);
      SameButPapers(site, s, s.(proof := Some(proof)));
      if proof.passed {
        var s2 := s.(proof := Some(proof), approval := Some(approval));
        SameButPapers(site, s, s2);
        ApprovedKeeps(site, s2);
        MissionFiled(site, s2.Enter(APPROVED), missionId);
      }
    }
  }

  // ---- prepare_proposal ----

  ghost predicate Early(s: Session) { s.flow.current in {OBSERVED, PLANNED, PROPOSED} }

  /** Before a proof exists, filing the snapshot, the plan and the proposal is harmless. */
  lemma FilingKeeps(site: Site, s: Session, t: Session)
    requires Inv(site, s) && Early(s)
    requires t == s.(plan := t.plan, proposal := t.proposal, proof := t.proof)
    requires t.proof.Some? && s.intent.destination in s.plant.world.locations ==>
      s.plant.world.locations[s.intent.destination].occupancy in {None, Some(s.intent.pallet)}
    ensures Inv(site, t)
  {
  }

  lemma ObserveKeeps(site: Site, s: Session, now: real)
    requires Inv(site, s) && s.flow.current == INTENT && Plant.OnMap(site, s.plant.world)
    ensures var t := Observe(site, s, now);
      Inv(site, t) && Plant.OnMap(site, t.plant.world) && t.flow.current == OBSERVED && t.proof.None? &&
        Shows(site, t.plant.world, t.snapshot.value)
  {
    var world := Plant.Counted(s.plant.world);
    var s' := s.(plant := s.plant.(world := world), snapshot := Some(Plant.Capture(site, world, now)));
    assert Inv(site, s');
    EnterKeeps(site, s', s'.Enter(OBSERVED), OBSERVED);
  }

  lemma RejectedProofKeeps(site: Site, s: Session, proof: Proof)
    requires Inv(site, s) && s.flow.current == PROPOSED
    ensures Inv(site, s.(proof := Some(proof)).Abort(REJECTED))
  {
    var t := s.Abort(REJECTED);
    EnterKeeps(site, s, t, REJECTED);
    MovesKept(t, t.(proof := Some(proof)));
  }

  lemma VerifiedKeeps(site: Site, s: Session, proof: Proof)
    requires Inv(site, s) && s.flow.current == PROPOSED && Prepared(site, s)
    requires s.snapshot.value.locations == s.plant.world.locations
    ensures Inv(site, s.(proof := Some(proof)).Enter(VERIFIED))
  {
    var s' := s.(proof := Some(proof));
    FilingKeeps(site, s, s');
    EnterKeeps(site, s', s'.Enter(VERIFIED), VERIFIED);
  }

  /** Before a proof exists, any step but into a verified state is free. */
  lemma EarlyEnters(site: Site, s: Session, t: Session, target: MissionStatus)
    requires Inv(site, s) && Early(s) && target in Allowed(s.flow.current)
    requires target in {PLANNED, PROPOSED, REJECTED, FAILED_SAFE} && Steps(s, t, target)
    ensures Inv(site, t)
  {
    hide SafeRoute, Plans, CargoOk, MovesOk, ReplanOk;
    EnterKeeps(site, s, t, target);
  }

  lemma ProposeKeeps(site: Site, s1: Session, plan: Plan, proposed: Option<Proposal>)
    requires Inv(site, s1) && s1.flow.current == OBSERVED && s1.snapshot.Some? && s1.proof.None?
    requires Shows(site, s1.plant.world, s1.snapshot.value) && s1.snapshot.value.locations == s1.plant.world.locations
    requires Plant.OnMap(site, s1.plant.world)
    requires Plans(s1.snapshot.value, s1.intent, None, None, Planned(plan))
    ensures Inv(site, Propose(s1, plan, s1.snapshot.value, proposed).0)
  {
    hide SafeRoute, Plans, RouteProof, Core, ReplanOk, Shows;
    var s2' := s1.(plan := Some(plan));
    FilingKeeps(site, s1, s2');
    var s2 := s2'.Enter(PLANNED);
    EarlyEnters(site, s2', s2, PLANNED);
    if proposed.Some? {
      var s3' := s2.(proposal := proposed);
      FilingKeeps(site, s2, s3');
      var s3 := s3'.Enter(PROPOSED);
      EarlyEnters(site, s3', s3, PROPOSED);
      var proof := RouteProof(s1.intent, plan, s1.snapshot.value, proposed.value);
      ProofPasses(s1.intent, plan, s1.snapshot.value, proposed.value);
      if proof.passed {
        assert Shows(site, s3.plant.world, s3.snapshot.value);
        VerifiedKeeps(site, s3, proof);
      } else {
        RejectedProofKeeps(site, s3, proof);
      }
    }
  }

  lemma PrepareKeeps(site: Site, s: Session, now: real, planned: Outcome, proposed: Option<Proposal>)
    requires Inv(site, s) && Possible(site, s, Prepare(now, planned, proposed))
    ensures Inv(site, DoPrepare(site, s, now, planned, proposed).0)
  {
    hide SafeRoute, Core, ReplanOk, Propose, Plans;
    WorldNotesKeep(site, s, s.CountSnapshot());
    if s.flow.current == INTENT && Plant.OnMap(site, s.plant.world) {
      ObserveKeeps(site, s, now);
      var s1 := Observe(site, s, now);
      if !BothLive(s1) {
        EarlyEnters(site, s1, s1.Abort(FAILED_SAFE), FAILED_SAFE);
      } else if planned.Planned? {
        ProposeKeeps(site, s1, planned.plan, proposed);
      }
    }
  }

  // ---- start ----

  /** What a passed route proof says about the entities of the world. */
  lemma {:induction false} PreparedFacts(site: Site, s: Session)
    requires Prepared(site, s)
    ensures var w := s.plant.world;
      && s.plan.value.agv in w.agvs && s.intent.pallet in w.pallets
      && s.intent.source in w.locations && s.intent.destination in w.locations
      && s.intent.source != s.intent.destination
      && |s.plan.value.nodes| >= 2 && (forall n :: n in s.plan.value.nodes ==> n in site.nodes)
      && s.plan.value.nodes[|s.plan.value.nodes| - 1] == w.locations[s.intent.destination].node
  {
    PlanFollowsEdges(s.snapshot.value, s.intent, None, None, s.plan.value);
    var nodes := s.plan.value.nodes;
    assert nodes[0] != nodes[|nodes| - 1];
  }

  lemma ReadyToGo(site: Site, s: Session, m: Mission)
    requires Prepared(site, s) && CargoOk(s) && s.proof.Some? && s.flow.current != REJECTED
    requires SameJob(s, m) && m.route != [] && forall n :: n in m.route ==> n in site.nodes
    ensures Plant.Ready(site, s.plant.world, m)
  {
    PreparedFacts(site, s);
  }

  /** The AGV moves one node along a safe route under a valid approval. */
  lemma MovedKeeps(site: Site, s: Session, id: Id, auth: Authority)
    requires Core(site, s) && s.flow.current == EXECUTING && Dispatched(s)
    requires id == TheMission(s).id && TheMission(s).status == EXECUTING && TheMission(s).route == auth.plan.nodes
    requires Covers(s, auth) && auth.snapshot.nodes == site.nodes
    ensures Plant.Advance(site, s.plant, id).Some?
    ensures var (plant, m) := Plant.Advance(site, s.plant, id).value;
      var t := Moved(s, plant, m, auth);
      && Core(site, t) && t.mission == Some(m) && m == TheMission(t)
      && m == TheMission(s).(index := Plant.NextIndex(TheMission(s)), status := m.status)
      && m.status == (if m.index == |m.route| - 1 then COMPLETED else EXECUTING)
      && Plant.SameEntities(s.plant.world, plant.world)
      && t.moves == s.moves + [Move(auth.plan.nodes[m.index], auth)]
      && (m.status == COMPLETED ==> Plant.Arrived(site, plant.world, m, auth.plan.nodes[|auth.plan.nodes| - 1]))
  {
    hide Plans, ApprovedFirst, FlowOk, CargoOk, AdapterOk, CopyOk, Shows, Plant.Aligned;
    var m0 := TheMission(s);
    ReadyToGo(site, s, m0);
    Plant.AdvanceEffect(site, s.plant, id);
    var (plant, m) := Plant.Advance(site, s.plant, id).value;
    var t := Moved(s, plant, m, auth);
    TraceGrows(s.trace, Telemetry(m.status, plant.world.agvs[m.agv].node));
    MovedKeepsMoves(s, t, Move(auth.plan.nodes[m.index], auth));
    MovedKeepsPlant(site, s, t, id);
  }

  lemma MovedKeepsMoves(s: Session, t: Session, move: Move)
    requires MovesOk(s) && t.intent == s.intent && t.plan == s.plan && t.proposal == s.proposal
    requires t.moves == s.moves + [move] && Authorised(s, move)
    ensures MovesOk(t)
  {
    forall i | 0 <= i < |t.moves| ensures Authorised(t, t.moves[i]) {
      if i < |s.moves| {
        assert Authorised(s, s.moves[i]);
      }
    }
  }

  lemma MovedKeepsPlant(site: Site, s: Session, t: Session, id: Id)
    requires Core(site, s) && s.flow.current == EXECUTING && Dispatched(s) && id == TheMission(s).id
    requires t == s.(plant := t.plant, mission := t.mission, moves := t.moves, trace := t.trace)
    requires t.mission.Some? && SameJob(s, t.mission.value) && t.mission.value.status in {EXECUTING, COMPLETED}
    requires t.mission.value.id == id
    requires t.plant.adapter == s.plant.adapter.(missions := s.plant.adapter.missions[id := t.mission.value])
    requires Plant.SameEntities(s.plant.world, t.plant.world) && Plant.Ready(site, t.plant.world, t.mission.value)
    requires Plant.OnMap(site, t.plant.world)
    ensures StageOk(site, t) && CargoOk(t) && AdapterOk(t) && CopyOk(t)
    ensures Dispatched(t) && TheMission(t) == t.mission.value
  {
  }

  /** An empty adapter takes the approved mission. */
  lemma AdapterTakes(site: Site, s: Session)
    requires Inv(site, s) && s.flow.current == APPROVED && s.mission.Some? && !HasExecuted(s)
    ensures s.mission.value.status == APPROVED && s.proposal.Some? && s.plan.Some? && SameJob(s, s.mission.value)
    ensures s.mission.value.route == s.plan.value.nodes && s.mission.value.index == 0
    ensures Plant.Start(site, s.plant, s.mission.value).Some?
    ensures var (plant, m) := Plant.Start(site, s.plant, s.mission.value).value;
      && m == s.mission.value.(status := EXECUTING)
      && plant.adapter == Plant.Adapter(map[m.id := m], map[m.proposalHash := m.id])
      && plant.world == s.plant.world.(agvs := plant.world.agvs) && plant.world.agvs.Keys == s.plant.world.agvs.Keys
      && Plant.OnMap(site, plant.world)
  {
    hide SafeRoute, Plans, FlowOk, ApprovedFirst, Authorised;
    PreparedFacts(site, s);
  }

  /** A first dispatch: the workflow executes the mission that the adapter took. */
  lemma {:induction false} FirstDispatch(site: Site, s: Session)
    requires Inv(site, s) && s.flow.current == APPROVED && s.mission.Some? && !HasExecuted(s)
    ensures Plant.Start(site, s.plant, s.mission.value).Some?
    ensures var (plant, m) := Plant.Start(site, s.plant, s.mission.value).value;
      var t := s.(plant := plant, mission := Some(m)).Enter(EXECUTING);
      && Inv(site, t) && Dispatched(t) && TheMission(t) == m && m == s.mission.value.(status := EXECUTING)
      && m.route == s.plan.value.nodes && m.index == 0
  {
    AdapterTakes(site, s);
    var (plant, m) := Plant.Start(site, s.plant, s.mission.value).value;
    hide Plant.Start, StageOk, CargoOk, ReplanOk, Covers, Plant.Aligned, SafeRoute, Plans, FlowOk, ApprovedFirst;
    var t := s.(plant := plant, mission := Some(m)).Enter(EXECUTING);
    HistoryEnters(s, t, EXECUTING);
    TraceEnters(s, t, EXECUTING);
    MovesKept(s, t);
    DispatchKeepsPlan(site, s, t);
  }

  lemma DispatchKeepsPlan(site: Site, s: Session, t: Session)
    requires Inv(site, s) && s.flow.current == APPROVED && !HasExecuted(s)
    requires t == s.(plant := t.plant, mission := t.mission).Enter(EXECUTING)
    requires t.plant.world == s.plant.world.(agvs := t.plant.world.agvs) &&
      t.plant.world.agvs.Keys == s.plant.world.agvs.Keys
    requires Plant.OnMap(site, t.plant.world)
    ensures StageOk(site, t) && CargoOk(t) && ReplanOk(site, t)
  {
    hide SafeRoute, Plans, FlowOk, ApprovedFirst, MovesOk, AdapterOk, CopyOk, TraceOk;
  }

  /** A renewed approval dispatches nothing: the adapter answers with the stopped mission. */
  lemma {:induction false} SecondDispatch(site: Site, s: Session)
    requires Inv(site, s) && s.flow.current == APPROVED && s.mission.Some? && HasExecuted(s)
    ensures Plant.Start(site, s.plant, s.mission.value) == Some((s.plant, TheMission(s)))
    ensures TheMission(s).status == SAFE_STOP
    ensures Inv(site, s.(mission := Some(TheMission(s))).Enter(EXECUTING))
    ensures forall id :: Plant.Advance(site, s.plant, id) == None
  {
    hide SafeRoute, Plans, ApprovedFirst;
    var s' := s.(mission := Some(TheMission(s)));
    MovesKept(s, s');
    var t := s'.Enter(EXECUTING);
    HistoryEnters(s', t, EXECUTING);
    TraceEnters(s', t, EXECUTING);
    AdapterKept(s', t, EXECUTING);
    PlanKept(site, s', t, EXECUTING);
    MovesKept(s', t);
  }

  lemma SecondStartKeeps(site: Site, s: Session, id: Id, now: real)
    requires Inv(site, s) && s.flow.current == APPROVED && s.mission.Some? && HasExecuted(s)
    requires s.approval.Some? && s.proposal.Some? && ValidFor(s.approval.value, s.proposal.value, now)
    ensures DoStart(site, s, id, now) == (s.(mission := Some(TheMission(s))).Enter(EXECUTING), Raised(AdapterFailed))
    ensures Inv(site, DoStart(site, s, id, now).0)
  {
    SecondDispatch(site, s);
    assert Plant.Advance(site, s.plant, id) == None;
  }

  lemma StartKeeps(site: Site, s: Session, id: Id, now: real)
    requires Inv(site, s)
    ensures Inv(site, DoStart(site, s, id, now).0)
  {
    hide SafeRoute, Plans, ApprovedFirst, FlowOk, MovesOk, CargoOk;
    if s.mission.Some? && s.approval.Some? && s.proposal.Some? && s.flow.current == APPROVED {
      if !ValidFor(s.approval.value, s.proposal.value, now) {
        EnterKeeps(site, s, s.Abort(FAILED_SAFE), FAILED_SAFE);
      } else if HasExecuted(s) {
        SecondStartKeeps(site, s, id, now);
      } else {
        FirstMoveKeeps(site, s, id, now);
      }
    }
  }

  lemma FirstMoveKeeps(site: Site, s: Session, id: Id, now: real)
    requires Inv(site, s) && s.flow.current == APPROVED && s.mission.Some? && s.approval.Some? && !HasExecuted(s)
    requires s.proposal.Some? && ValidFor(s.approval.value, s.proposal.value, now)
    ensures Inv(site, DoStart(site, s, id, now).0)
  {
    hide SafeRoute, Plans, ApprovedFirst, FlowOk, CargoOk, TraceOk, MovesOk, AdapterOk, CopyOk;
    FirstDispatch(site, s);
    var (plant, m) := Plant.Start(site, s.plant, s.mission.value).value;
    var s1 := s.(plant := plant, mission := Some(m)).Enter(EXECUTING);
    if id == m.id {
      var auth := Authority(s.plan.value, s.snapshot.value, s.approval.value, now);
      MovedKeeps(site, s1, id, auth);
      var (plant', m') := Plant.Advance(site, plant, id).value;
      var t := Moved(s1, plant', m', auth);
      assert t.replan.None?;
      assert DoStart(site, s, id, now) == (t, Done);
    } else {
      assert Plant.Advance(site, plant, id) == None;
      assert DoStart(site, s, id, now) == (s1, Raised(AdapterFailed));
    }
  }

  // ---- stop ----

  lemma BlockedKeeps(site: Site, s: Session, now: real)
    requires Inv(site, s) && s.flow.current == EXECUTING
    ensures var t := s.(plant := s.plant.(world := Plant.Blocked(site, s.plant.world, now))).Enter(BLOCKED);
      Inv(site, t) && t.flow.current == BLOCKED
  {
    var s' := s.(plant := s.plant.(world := Plant.Blocked(site, s.plant.world, now)));
    WorldNotesKeep(site, s, s');
    EnterKeeps(site, s', s'.Enter(BLOCKED), BLOCKED);
  }

  /** Obstacles and the snapshot counter are free to change. */
  lemma WorldNotesKeep(site: Site, s: Session, t: Session)
    requires Inv(site, s)
    requires t == s.(plant := s.plant.(world := s.plant.world.(
      obstacles := t.plant.world.obstacles, snapshots := t.plant.world.snapshots)))
    ensures Inv(site, t)
  {
    MovesKept(s, t);
  }

  lemma StoppedKeeps(site: Site, s: Session, id: Id)
    requires Inv(site, s) && s.flow.current == BLOCKED && Plant.LocalStop(s.plant, id).Some?
    ensures var t := s.(plant := Plant.LocalStop(s.plant, id).value);
      Inv(site, t) && Dispatched(t) && TheMission(t) == TheMission(s).(status := SAFE_STOP) && id == TheMission(s).id
  {
    hide SafeRoute, Plans, FlowOk, ApprovedFirst, Authorised;
    var t := s.(plant := Plant.LocalStop(s.plant, id).value);
    MovesKept(s, t);
    assert Shows(site, t.plant.world, t.snapshot.value);
  }

  lemma StoppedEnters(site: Site, s: Session, id: Id)
    requires Inv(site, s) && s.flow.current == BLOCKED && Plant.LocalStop(s.plant, id).Some?
    ensures var t := s.(plant := Plant.LocalStop(s.plant, id).value);
      forall mission :: mission == None || mission == Some(TheMission(t)) ==>
        Inv(site, t.(mission := mission).Enter(SAFE_STOP))
  {
    StoppedKeeps(site, s, id);
    var t := s.(plant := Plant.LocalStop(s.plant, id).value);
    forall mission: Option<Mission> | mission == None || mission == Some(TheMission(t))
      ensures Inv(site, t.(mission := mission).Enter(SAFE_STOP))
    {
      var t' := t.(mission := mission);
      MovesKept(t, t');
      EnterKeeps(site, t', t'.Enter(SAFE_STOP), SAFE_STOP);
    }
  }

  /** A stop of the dispatched mission cannot fail half-way: its AGV exists. */
  lemma FailedStopLeavesNothing(site: Site, s: Session, id: Id)
    requires Inv(site, s) && s.flow.current == BLOCKED
    ensures Plant.LocalStop(s.plant, id).None? ==> Plant.LocalStopLeft(s.plant, id) == s.plant
  {
    hide SafeRoute, Plans, FlowOk, ApprovedFirst, MovesOk, CargoOk;
    PreparedFacts(site, s);
  }

  lemma StopKeeps(site: Site, s: Session, id: Id, trigger: string, now: real)
    requires Inv(site, s)
    ensures Inv(site, DoStop(site, s, id, trigger, now).0)
  {
    hide Inv;
    if s.flow.current == EXECUTING {
      BlockedKeeps(site, s, now);
      var s1 := s.(plant := s.plant.(world := Plant.Blocked(site, s.plant.world, now))).Enter(BLOCKED);
      FailedStopLeavesNothing(site, s1, id);
      if trigger != "" && Plant.LocalStop(s1.plant, id).Some? {
        StoppedKeeps(site, s1, id);
        StoppedEnters(site, s1, id);
      }
    }
  }

  // ---- replan ----

  lemma {:induction false} ReplanIsSafe(site: Site, s: Session, now: real, plan: Plan, checkedAt: real)
    requires Inv(site, s) && MayReplan(s)
    requires var snapshot := Plant.Capture(site, Plant.Counted(s.plant.world), now);
      && s.mission.value.agv in s.plant.world.agvs
      && Plans(snapshot, s.intent, Some(s.plant.world.agvs[s.mission.value.agv].node), Some(s.mission.value.agv),
           Planned(plan))
      && BindApproval(RouteProof(s.intent, plan, snapshot,
           IssueProposal(s.proposal.value.id, s.intent, plan, snapshot.id, 0)),
           s.proposal.value, s.approval.value, checkedAt).passed
    ensures var world := Plant.Counted(s.plant.world);
      var snapshot := Plant.Capture(site, world, now);
      && Shows(site, world, snapshot) && SafeRoute(s.intent, plan, snapshot)
      && plan.agv == s.plan.value.agv && plan.nodes[0] == s.plant.world.agvs[plan.agv].node
      && ValidFor(s.approval.value, s.proposal.value, checkedAt)
  {
    hide Plans, SafeRoute, RouteProof, BindApproval, HistoryOk, TraceOk, MovesOk, AdapterOk, CargoOk, ReplanOk;
    var snapshot := Plant.Capture(site, Plant.Counted(s.plant.world), now);
    var p := IssueProposal(s.proposal.value.id, s.intent, plan, snapshot.id, 0);
    PlanFollowsEdges(snapshot, s.intent, Some(s.plant.world.agvs[s.mission.value.agv].node), Some(s.mission.value.agv),
      plan);
    SealedRoutePasses(s.intent, plan, snapshot, p, s.proposal.value, s.approval.value, checkedAt);
  }

  /** Filing a replan with its proof and snapshot, and moving on as the proof says. */
  lemma ReplanFiled(site: Site, s: Session, plan: Plan, proof: Proof, snapshot: Snapshot)
    requires Inv(site, s) && s.flow.current == REPLANNING
    requires proof.passed ==>
      && Shows(site, s.plant.world, snapshot) && SafeRoute(s.intent, plan, snapshot)
      && plan.agv == s.plan.value.agv && plan.agv in s.plant.world.agvs
      && plan.nodes[0] == s.plant.world.agvs[plan.agv].node
      && Plans(snapshot, s.intent, Some(plan.nodes[0]), Some(plan.agv), Planned(plan))
    ensures var t := s.(replan := Some(Replanned(plan, proof, snapshot)));
      Inv(site, if proof.passed then t.Enter(VERIFIED) else t.Abort(FAILED_SAFE))
  {
    var t := s.(replan := Some(Replanned(plan, proof, snapshot)));
    assert Inv(site, t) by {
      MovesKept(s, t);
    }
    if proof.passed {
      EnterKeeps(site, t, t.Enter(VERIFIED), VERIFIED);
    } else {
      EnterKeeps(site, t, t.Abort(FAILED_SAFE), FAILED_SAFE);
    }
  }

  /** From a safe stop both ways on are open. */
  lemma SafeStopLeaves(site: Site, s: Session)
    requires Inv(site, s) && s.flow.current == SAFE_STOP
    ensures Inv(site, s.Abort(FAILED_SAFE)) && Inv(site, s.Enter(REPLANNING))
  {
    hide SafeRoute, Plans, FlowOk, ApprovedFirst, MovesOk, CargoOk, TraceOk;
    EnterKeeps(site, s, s.Abort(FAILED_SAFE), FAILED_SAFE);
    EnterKeeps(site, s, s.Enter(REPLANNING), REPLANNING);
  }

  lemma ReplanKeeps(site: Site, s: Session, now: real, recovery: Option<Recovery>, planned: Outcome, checkedAt: real)
    requires Inv(site, s) && Possible(site, s, Replan(now, recovery, planned, checkedAt))
    ensures Inv(site, DoReplan(site, s, now, recovery, planned, checkedAt).0)
  {
    hide Inv, Plans, RouteProof, BindApproval, Plant.Capture;
    if MayReplan(s) {
      var s1 := s.CountSnapshot();
      WorldNotesKeep(site, s, s1);
      SafeStopLeaves(site, s1);
      if Plant.OnMap(site, s.plant.world) && recovery.Some? && Preserves(s, recovery.value) && planned.Planned? {
        ReplanFiling(site, s, s1.Enter(REPLANNING), now, planned.plan, checkedAt);
      }
    }
  }

  lemma ReplanFiling(site: Site, s: Session, s2: Session, now: real, plan: Plan, checkedAt: real)
    requires Inv(site, s) && MayReplan(s) && Inv(site, s2)
    requires s2 == s.(plant := s.plant.(world := Plant.Counted(s.plant.world))).Enter(REPLANNING)
    requires s.mission.value.agv in s.plant.world.agvs ==>
      Plans(Plant.Capture(site, Plant.Counted(s.plant.world), now), s.intent,
        Some(s.plant.world.agvs[s.mission.value.agv].node), Some(s.mission.value.agv), Planned(plan))
    ensures var snapshot := Plant.Capture(site, Plant.Counted(s.plant.world), now);
      var route := RouteProof(s.intent, plan, snapshot,
        IssueProposal(s.proposal.value.id, s.intent, plan, snapshot.id, 0));
      var proof := BindApproval(route, s.proposal.value, s.approval.value, checkedAt);
      var s3 := s2.(replan := Some(Replanned(plan, proof, snapshot)));
      Inv(site, if proof.passed then s3.Enter(VERIFIED) else s3.Abort(FAILED_SAFE))
  {
    var snapshot := Plant.Capture(site, Plant.Counted(s.plant.world), now);
    var route := RouteProof(s.intent, plan, snapshot,
      IssueProposal(s.proposal.value.id, s.intent, plan, snapshot.id, 0));
    var proof := BindApproval(route, s.proposal.value, s.approval.value, checkedAt);
    PreparedFacts(site, s);
    if proof.passed {
      ReplanIsSafe(site, s, now, plan, checkedAt);
    }
    ReplanFiled(site, s2, plan, proof, snapshot);
  }

  // ---- resume_and_complete ----

  /** The resumed mission starts over on the new route. */
  lemma {:induction false} RerouteKeeps(site: Site, s: Session, id: Id, now: real)
    requires Inv(site, s) && MayResume(s, now) && Plant.ReplaceRoute(s.plant, id, s.replan.value.plan).Some?
    ensures var (plant, m) := Plant.ReplaceRoute(s.plant, id, s.replan.value.plan).value;
      var t := s.(plant := plant, mission := Some(m)).Enter(EXECUTING);
      && Core(site, t) && Dispatched(t) && TheMission(t) == m && id == m.id
      && m.status == EXECUTING && m.route == s.replan.value.plan.nodes && m.index == 0
      && Plant.SameEntities(s.plant.world, plant.world)
  {
    hide SafeRoute, Plans, FlowOk, ApprovedFirst, Authorised;
    var (plant, m) := Plant.ReplaceRoute(s.plant, id, s.replan.value.plan).value;
    var t := s.(plant := plant, mission := Some(m)).Enter(EXECUTING);
    HistoryEnters(s, t, EXECUTING);
    TraceEnters(s, t, EXECUTING);
    MovesKept(s, t);
    assert Shows(site, plant.world, t.snapshot.value);
  }

  function Along(nodes: seq<Id>, auth: Authority): seq<Move> {
    seq(|nodes|, i requires 0 <= i < |nodes| => Move(nodes[i], auth))
  }

  /** What a finished drive leaves: the AGV has visited the rest of the route, node by node, and the
      load is delivered. */
  ghost predicate DroveTo(site: Site, s: Session, t: Session, rest: seq<Id>, auth: Authority) {
    && Core(site, t) && Dispatched(t) && t.mission == Some(TheMission(t)) && TheMission(t).status == COMPLETED
    && t == s.(plant := t.plant, mission := t.mission, moves := s.moves + Along(rest, auth), trace := t.trace)
    && Plant.SameEntities(s.plant.world, t.plant.world)
    && Plant.Arrived(site, t.plant.world, TheMission(t), auth.plan.nodes[|auth.plan.nodes| - 1])
  }

  ghost predicate OnTheWay(site: Site, s: Session, id: Id, auth: Authority) {
    && Core(site, s) && s.flow.current == EXECUTING && Dispatched(s)
    && s.mission == Some(TheMission(s)) && id == TheMission(s).id
    && TheMission(s).status == EXECUTING && TheMission(s).route == auth.plan.nodes
    && TheMission(s).index < |auth.plan.nodes| - 1
    && Covers(s, auth) && auth.snapshot.nodes == site.nodes
  }

  /** The loop of advances ends after exactly as many advances as nodes remain. */
  lemma {:induction false} DriveDelivers(site: Site, s: Session, id: Id, auth: Authority)
    requires OnTheWay(site, s, id, auth)
    ensures Drive(site, s, id, auth).1 == Done
    ensures DroveTo(site, s, Drive(site, s, id, auth).0, auth.plan.nodes[TheMission(s).index + 1..], auth)
    decreases |auth.plan.nodes| - TheMission(s).index
  {
    hide Core, SafeRoute, Plant.SameEntities, Plant.Arrived;
    MovedKeeps(site, s, id, auth);
    var (plant, m) := Plant.Advance(site, s.plant, id).value;
    var u := Moved(s, plant, m, auth);
    if m.status == EXECUTING {
      DriveDelivers(site, u, id, auth);
      DriveStep(site, s, u, Drive(site, u, id, auth).0, m.index, auth);
    } else {
      assert Drive(site, u, id, auth) == (u, Done);
      assert Along(auth.plan.nodes[m.index..], auth) == [Move(auth.plan.nodes[m.index], auth)];
    }
  }

  lemma AlongStep(nodes: seq<Id>, n: nat, auth: Authority)
    requires n < |nodes|
    ensures Along(nodes[n..], auth) == [Move(nodes[n], auth)] + Along(nodes[n + 1..], auth)
  {
    assert nodes[n..] == [nodes[n]] + nodes[n + 1..];
  }

  lemma DriveStep(site: Site, s: Session, u: Session, t: Session, n: nat, auth: Authority)
    requires n < |auth.plan.nodes|
    requires u == s.(plant := u.plant, mission := u.mission, trace := u.trace,
      moves := s.moves + [Move(auth.plan.nodes[n], auth)])
    requires Plant.SameEntities(s.plant.world, u.plant.world)
    requires DroveTo(site, u, t, auth.plan.nodes[n + 1..], auth)
    ensures DroveTo(site, s, t, auth.plan.nodes[n..], auth)
  {
    hide Core, Plant.Arrived;
    AlongStep(auth.plan.nodes, n, auth);
    assert t.moves == s.moves + Along(auth.plan.nodes[n..], auth);
  }

  /** The state after a drive is complete. */
  lemma CompletionKeeps(site: Site, s: Session, t: Session)
    requires Core(site, t) && t.flow.current == EXECUTING && Dispatched(t) && TheMission(t).status == COMPLETED
    requires ReplanOk(site, s) && s.replan.Some? && s.replan.value.proof.passed && t.replan == s.replan
    requires t.plan == s.plan && t.intent == s.intent && Plant.SameEntities(s.plant.world, t.plant.world)
    ensures Inv(site, t.Enter(COMPLETED))
  {
    hide SafeRoute, Plans, FlowOk, ApprovedFirst, Authorised, Plant.Aligned;
    var u := t.Enter(COMPLETED);
    HistoryEnters(t, u, COMPLETED);
    TraceEnters(t, u, COMPLETED);
    MovesKept(t, u);
  }

  /** A resume that passes its guard for the mission the adapter holds always completes. */
  lemma {:induction false} ResumeEffect(site: Site, s: Session, id: Id, now: real)
    requires Inv(site, s) && MayResume(s, now) && Plant.ReplaceRoute(s.plant, id, s.replan.value.plan).Some?
    ensures var (t, result) := DoResume(site, s, id, now);
      var auth := ResumeAuthority(s, now);
      && result == Done && Inv(site, t) && t.flow.current == COMPLETED && Dispatched(t)
      && t.mission == Some(TheMission(t)) && TheMission(t).status == COMPLETED
      && t.moves == s.moves + Along(auth.plan.nodes[1..], auth)
      && Plant.SameEntities(s.plant.world, t.plant.world)
      && Plant.Arrived(site, t.plant.world, TheMission(t), Last(auth.plan.nodes))
  {
    hide Core, SafeRoute, Plans, Plant.SameEntities, Plant.Arrived;
    RerouteKeeps(site, s, id, now);
    var (plant, m) := Plant.ReplaceRoute(s.plant, id, s.replan.value.plan).value;
    var s1 := s.(plant := plant, mission := Some(m)).Enter(EXECUTING);
    var auth := ResumeAuthority(s, now);
    ResumeCovers(site, s, s1, now);
    DriveDelivers(site, s1, id, auth);
    var t := Drive(site, s1, id, auth).0;
    SameEntitiesTransitive(s.plant.world, plant.world, t.plant.world);
    CompletionKeeps(site, s, t);
  }

  lemma ResumeCovers(site: Site, s: Session, s1: Session, now: real)
    requires Inv(site, s) && MayResume(s, now) && s1.intent == s.intent && s1.plan == s.plan &&
      s1.proposal == s.proposal
    ensures var auth := ResumeAuthority(s, now);
      Covers(s1, auth) && auth.snapshot.nodes == site.nodes && |auth.plan.nodes| >= 2
  {
    hide SafeRoute, Plans;
  }

  lemma SameEntitiesTransitive(a: Plant.World, b: Plant.World, c: Plant.World)
    requires Plant.SameEntities(a, b) && Plant.SameEntities(b, c)
    ensures Plant.SameEntities(a, c)
  {
  }

  /** The reroute of the stopped mission cannot fail half-way: its AGV exists. */
  lemma FailedRerouteLeavesNothing(site: Site, s: Session, id: Id, now: real)
    requires Inv(site, s) && MayResume(s, now) && Plant.ReplaceRoute(s.plant, id, s.replan.value.plan).None?
    ensures Plant.ReplaceRouteLeft(s.plant, id, s.replan.value.plan) == s.plant
    ensures DoResume(site, s, id, now) == (s, Raised(AdapterFailed))
  {
    hide SafeRoute, Plans, ApprovedFirst, FlowOk, MovesOk, CargoOk;
    PreparedFacts(site, s);
  }

  lemma ResumeKeeps(site: Site, s: Session, id: Id, now: real)
    requires Inv(site, s)
    ensures Inv(site, DoResume(site, s, id, now).0)
  {
    hide Inv;
    if MayResume(s, now) {
      if Plant.ReplaceRoute(s.plant, id, s.replan.value.plan).Some? {
        ResumeEffect(site, s, id, now);
      } else {
        FailedRerouteLeavesNothing(site, s, id, now);
      }
    }
  }

  // ---- Every operation ----

  lemma {:induction false} PerformKeeps(site: Site, s: Session, id: Id, op: Operation)
    requires Inv(site, s) && Possible(site, s, op)
    ensures Inv(site, Perform(site, s, id, op).0)
  {
    hide Inv;
    match op
    case Prepare(now, planned, proposed) => PrepareKeeps(site, s, now, planned, proposed);
    case Approve(actor, token, missionId, issuedAt, checkedAt) =>
      ApproveKeeps(site, s, actor, token, missionId, issuedAt, checkedAt);
    case Reject => RejectKeeps(site, s);
    case Start(now) => StartKeeps(site, s, id, now);
    case Stop(trigger, now) => StopKeeps(site, s, id, trigger, now);
    case Replan(now, recovery, planned, checkedAt) => ReplanKeeps(site, s, now, recovery, planned, checkedAt);
    case Resume(now) => ResumeKeeps(site, s, id, now);
    case Override => OverrideKeeps(site, s);
  }
}
