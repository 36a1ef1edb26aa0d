/** What operations change, and what they cannot: facts about one step that carry over to runs. */
module SessionEffects {
  import opened Domain
  import opened Workflow
  import opened RoutePlanner
  import opened Planning
  import opened Safety
  import Plant
  import opened Sessions
  import opened SessionInvariant
  import opened SessionSteps

  // ---- How a session evolves ----

  /** Filed papers stay, and the three records only grow. */
  ghost predicate Grows(s: Session, t: Session) {
    && t.intent == s.intent
    && (s.plan.Some? ==> t.plan == s.plan) && (s.proposal.Some? ==> t.proposal == s.proposal)
    && s.flow.history <= t.flow.history && s.trace <= t.trace && s.moves <= t.moves
  }

  /** No AGV changes place except by a logged move, and only the selected AGV moves. */
  ghost predicate MovesLogged(s: Session, t: Session) {
    var a, b := s.plant.world.agvs, t.plant.world.agvs;
    && b.Keys == a.Keys
    && if t.moves == s.moves then forall v :: v in a ==> b[v].node == a[v].node
       else
         && t.plan.Some? && t.plan.value.agv in b && t.moves != []
         && b[t.plan.value.agv].node == t.moves[|t.moves| - 1].node
         && forall v :: v in a && v != t.plan.value.agv ==> b[v].node == a[v].node
  }

  /** A dispatched mission stays the adapter's only mission and keeps its identity. What `Dispatched`
      says of its pallet, endpoints, AGV and goal refers to papers that `Grows` keeps. */
  ghost predicate KeepsMission(s: Session, t: Session) {
    HasExecuted(s) && Dispatched(s) ==> HasExecuted(t) && Dispatched(t) && TheMission(t).id == TheMission(s).id
  }

  /** No location but the destination ever shows another load. */
  ghost predicate KeepsLoads(s: Session, t: Session) {
    var a, b := s.plant.world.locations, t.plant.world.locations;
    b.Keys == a.Keys && forall l :: l in a && l != s.intent.destination ==> b[l] == a[l]
  }

  ghost predicate Evolves(s: Session, t: Session) {
    Grows(s, t) && MovesLogged(s, t) && KeepsMission(s, t) && KeepsLoads(s, t)
  }

  /** Once it was moved, the selected AGV stands where the last move put it. */
  ghost predicate Standing(s: Session) {
    s.moves != [] ==>
      && s.plan.Some? && s.plan.value.agv in s.plant.world.agvs
      && s.plant.world.agvs[s.plan.value.agv].node == s.moves[|s.moves| - 1].node
  }

  lemma StandingKept(s: Session, t: Session)
    requires Standing(s) && Evolves(s, t)
    ensures Standing(t)
  {
    hide KeepsMission, KeepsLoads;
  }

  lemma EvolvesTransitive(s: Session, t: Session, u: Session)
    requires Evolves(s, t) && Evolves(t, u)
    ensures Evolves(s, u)
  {
    hide SameJob, StatusOk;
  }

  /** A step that leaves the adapter and the AGVs alone. */
  lemma PaperworkEvolves(site: Site, s: Session, t: Session)
    requires Inv(site, s) && Inv(site, t) && Grows(s, t)
    requires t.plant.adapter == s.plant.adapter && t.plant.world.agvs == s.plant.world.agvs && t.moves == s.moves
    requires t.plant.world.locations == s.plant.world.locations
    ensures Evolves(s, t)
  {
    hide SafeRoute, Plans, FlowOk, ApprovedFirst, CargoOk, MovesOk, ReplanOk;
  }

  lemma GrowsTransitive(s: Session, t: Session, u: Session)
    requires Grows(s, t) && Grows(t, u)
    ensures Grows(s, u)
  {
  }

  lemma EnterGrows(s: Session, target: MissionStatus)
    ensures Grows(s, s.Enter(target)) && Grows(s, s.Abort(target))
  {
  }

  lemma PrepareGrows(site: Site, s: Session, now: real, planned: Outcome, proposed: Option<Proposal>)
    requires s.flow.current == INTENT && s.plan.None? && s.proposal.None?
    ensures Grows(s, DoPrepare(site, s, now, planned, proposed).0)
  {
    hide SafeRoute, RouteProof, Plant.Capture;
    var s1 := Observe(site, s, now);
    EnterGrows(s1, FAILED_SAFE);
    if planned.Planned? && BothLive(s1) {
      var s2' := s1.(plan := Some(planned.plan));
      EnterGrows(s2', PLANNED);
      var s2 := s2'.Enter(PLANNED);
      GrowsTransitive(s, s2', s2);
      if proposed.Some? {
        var proof := RouteProof(s.intent, planned.plan, s1.snapshot.value, proposed.value);
        var s3' := s2.(proposal := proposed);
        EnterGrows(s3', PROPOSED);
        GrowsTransitive(s, s3', s3'.Enter(PROPOSED));
        var s3 := s3'.Enter(PROPOSED).(proof := Some(proof));
        EnterGrows(s3, REJECTED);
        EnterGrows(s3, VERIFIED);
        GrowsTransitive(s, s3, s3.Abort(REJECTED));
        GrowsTransitive(s, s3, s3.Enter(VERIFIED));
      }
    }
  }

  lemma PrepareEvolves(site: Site, s: Session, now: real, planned: Outcome, proposed: Option<Proposal>)
    requires Inv(site, s) && Inv(site, DoPrepare(site, s, now, planned, proposed).0)
    ensures Evolves(s, DoPrepare(site, s, now, planned, proposed).0)
  {
    hide Inv, Grows, SafeRoute, RouteProof, Plant.Capture;
    var t := DoPrepare(site, s, now, planned, proposed).0;
    if s.flow.current == INTENT {
      NothingFiled(site, s);
      PrepareGrows(site, s, now, planned, proposed);
    } else {
      GrowsReflexive(s);
    }
    PaperworkEvolves(site, s, t);
  }

  lemma GrowsReflexive(s: Session)
    ensures Grows(s, s)
  {
  }

  lemma NothingFiled(site: Site, s: Session)
    requires Inv(site, s) && s.flow.current == INTENT
    ensures s.plan.None? && s.proposal.None?
  {
  }

  lemma ApproveEvolves(site: Site, s: Session, actor: Id, token: Id, missionId: Id, issuedAt: real, checkedAt: real)
    requires Inv(site, s) && Inv(site, DoApprove(s, actor, token, missionId, issuedAt, checkedAt).0)
    ensures Evolves(s, DoApprove(s, actor, token, missionId, issuedAt, checkedAt).0)
  {
    hide Inv;
    PaperworkEvolves(site, s, DoApprove(s, actor, token, missionId, issuedAt, checkedAt).0);
  }

  lemma RejectEvolves(site: Site, s: Session)
    requires Inv(site, s) && Inv(site, DoReject(s).0)
    ensures Evolves(s, DoReject(s).0)
  {
    hide Inv;
    PaperworkEvolves(site, s, DoReject(s).0);
  }

  lemma OverrideEvolves(site: Site, s: Session)
    requires Inv(site, s) && Inv(site, DoOverride(s).0)
    ensures Evolves(s, DoOverride(s).0)
  {
    hide Inv;
    PaperworkEvolves(site, s, DoOverride(s).0);
  }

  lemma ReplanEvolves(site: Site, s: Session, now: real, recovery: Option<Recovery>, planned: Outcome, checkedAt: real)
    requires Inv(site, s) && Inv(site, DoReplan(site, s, now, recovery, planned, checkedAt).0)
    ensures Evolves(s, DoReplan(site, s, now, recovery, planned, checkedAt).0)
  {
    hide Inv, SafeRoute, RouteProof, Plant.Capture;
    PaperworkEvolves(site, s, DoReplan(site, s, now, recovery, planned, checkedAt).0);
  }

  // ---- Stopping ----

  /** Every AGV stays where it is. */
  ghost predicate NobodyMoves(w: Plant.World, w': Plant.World) {
    w'.agvs.Keys == w.agvs.Keys
    && forall v :: v in w.agvs ==> w'.agvs[v].node == w.agvs[v].node && w'.agvs[v].pose == w.agvs[v].pose
  }

  lemma StoppedEvolves(site: Site, s: Session, id: Id, t: Session)
    requires Inv(site, s) && s.flow.current == BLOCKED && Plant.LocalStop(s.plant, id).Some?
    requires t == s.(plant := Plant.LocalStop(s.plant, id).value, mission := t.mission).Enter(SAFE_STOP)
    ensures Evolves(s, t) && NobodyMoves(s.plant.world, t.plant.world)
  {
    hide SafeRoute, Plans, FlowOk, ApprovedFirst, CargoOk, MovesOk, ReplanOk;
    StoppedKeeps(site, s, id);
    HistoryKept(s.flow, SAFE_STOP);
  }

  lemma HistoryKept(f: Flow, target: MissionStatus)
    requires EXECUTING in f.history
    ensures EXECUTING in f.To(target).history
  {
  }

  lemma StopEvolves(site: Site, s: Session, id: Id, trigger: string, now: real)
    requires Inv(site, s)
    ensures Evolves(s, DoStop(site, s, id, trigger, now).0)
    ensures NobodyMoves(s.plant.world, DoStop(site, s, id, trigger, now).0.plant.world)
  {
    hide Inv, Evolves, SafeRoute;
    var t := DoStop(site, s, id, trigger, now).0;
    if s.flow.current == EXECUTING && Plant.BlockageOk(site) {
      BlockedKeeps(site, s, now);
      var s1 := s.(plant := s.plant.(world := Plant.Blocked(site, s.plant.world, now))).Enter(BLOCKED);
      PaperworkEvolves(site, s, s1);
      FailedStopLeavesNothing(site, s1, id);
      if trigger != "" && Plant.LocalStop(s1.plant, id).Some? {
        var plant := Plant.LocalStop(s1.plant, id).value;
        ExecutingCopy(site, s);
        StoppedEvolves(site, s1, id, t);
        EvolvesTransitive(s, s1, t);
      }
    } else {
      PaperworkEvolves(site, s, s);
    }
  }

  /** While executing, the session's mission is one the adapter knows. */
  lemma ExecutingCopy(site: Site, s: Session)
    requires Inv(site, s) && s.flow.current == EXECUTING
    ensures s.mission.Some? && s.mission.value.id in s.plant.adapter.missions
  {
  }

  // ---- Moving ----

  /** An advance moves the mission's AGV, and logs where to. */
  lemma MovedEvolves(site: Site, s: Session, id: Id, auth: Authority)
    requires Core(site, s) && s.flow.current == EXECUTING && Dispatched(s)
    requires id == TheMission(s).id && TheMission(s).status == EXECUTING && TheMission(s).route == auth.plan.nodes
    requires Covers(s, auth) && auth.snapshot.nodes == site.nodes
    ensures Plant.Advance(site, s.plant, id).Some?
    ensures var (plant, m) := Plant.Advance(site, s.plant, id).value;
      Evolves(s, Moved(s, plant, m, auth))
  {
    hide Core, SafeRoute, Plans, FlowOk, ApprovedFirst;
    MovedKeeps(site, s, id, auth);
    MoveIsLogged(site, s, id);
    var (plant, m) := Plant.Advance(site, s.plant, id).value;
    AdapterKeepsMission(site, Moved(s, plant, m, auth));
  }

  lemma AdapterKeepsMission(site: Site, s: Session)
    requires Core(site, s) && HasExecuted(s)
    ensures Dispatched(s)
  {
  }

  lemma MoveIsLogged(site: Site, s: Session, id: Id)
    requires Core(site, s) && s.flow.current == EXECUTING && Dispatched(s)
    requires id == TheMission(s).id && Plant.Advance(site, s.plant, id).Some?
    ensures var (plant, m) := Plant.Advance(site, s.plant, id).value;
      var a, b := s.plant.world.agvs, plant.world.agvs;
      && HasExecuted(s) && m.agv == s.plan.value.agv && m.agv in a && b.Keys == a.Keys && m.id == id
      && (forall v :: v in a && v != m.agv ==> b[v].node == a[v].node)
      && plant.world.locations.Keys == s.plant.world.locations.Keys
      && (forall l :: l in s.plant.world.locations && l != s.intent.destination ==>
            plant.world.locations[l] == s.plant.world.locations[l])
  {
    hide SafeRoute, Plans, FlowOk, ApprovedFirst;
  }

  lemma StartEvolves(site: Site, s: Session, id: Id, now: real)
    requires Inv(site, s)
    ensures Evolves(s, DoStart(site, s, id, now).0)
  {
    hide Inv, Evolves, SafeRoute, Plans;
    if s.mission.Some? && s.approval.Some? && s.proposal.Some? && s.flow.current == APPROVED
       && ValidFor(s.approval.value, s.proposal.value, now) {
      if HasExecuted(s) {
        SecondStartKeeps(site, s, id, now);
        PaperworkEvolves(site, s, DoStart(site, s, id, now).0);
      } else {
        FirstStartEvolves(site, s, id, now);
      }
    } else {
      StartKeeps(site, s, id, now);
      PaperworkEvolves(site, s, DoStart(site, s, id, now).0);
    }
  }

  lemma DispatchEvolves(site: Site, s: Session)
    requires Inv(site, s) && s.flow.current == APPROVED && s.mission.Some? && !HasExecuted(s)
    ensures Plant.Start(site, s.plant, s.mission.value).Some?
    ensures var (plant, m) := Plant.Start(site, s.plant, s.mission.value).value;
      Evolves(s, s.(plant := plant, mission := Some(m)).Enter(EXECUTING))
  {
    hide Inv, SafeRoute, Plans;
    FirstDispatch(site, s);
  }

  lemma FirstStartEvolves(site: Site, s: Session, id: Id, now: real)
    requires Inv(site, s) && s.flow.current == APPROVED && s.mission.Some? && s.approval.Some? && !HasExecuted(s)
    requires s.proposal.Some? && ValidFor(s.approval.value, s.proposal.value, now)
    ensures Evolves(s, DoStart(site, s, id, now).0)
  {
    hide Evolves, SafeRoute, Plans, ApprovedFirst, FlowOk;
    FirstDispatch(site, s);
    DispatchEvolves(site, s);
    var (plant, m) := Plant.Start(site, s.plant, s.mission.value).value;
    var s1 := s.(plant := plant, mission := Some(m)).Enter(EXECUTING);
    if id == m.id {
      var auth := Authority(s.plan.value, s.snapshot.value, s.approval.value, now);
      MovedEvolves(site, s1, id, auth);
      var (plant', m') := Plant.Advance(site, plant, id).value;
      EvolvesTransitive(s, s1, Moved(s1, plant', m', auth));
      assert DoStart(site, s, id, now) == (Moved(s1, plant', m', auth), Done);
    } else {
      assert Plant.Advance(site, plant, id) == None;
      assert DoStart(site, s, id, now) == (s1, Raised(AdapterFailed));
    }
  }

  // ---- Resuming ----

  lemma {:induction false} DriveEvolves(site: Site, s: Session, id: Id, auth: Authority)
    requires OnTheWay(site, s, id, auth)
    ensures Evolves(s, Drive(site, s, id, auth).0)
    decreases |auth.plan.nodes| - TheMission(s).index
  {
    hide Core, Evolves, SafeRoute;
    MovedKeeps(site, s, id, auth);
    MovedEvolves(site, s, id, auth);
    var (plant, m) := Plant.Advance(site, s.plant, id).value;
    var u := Moved(s, plant, m, auth);
    if m.status == EXECUTING {
      DriveEvolves(site, u, id, auth);
      EvolvesTransitive(s, u, Drive(site, u, id, auth).0);
    } else {
      assert Drive(site, u, id, auth) == (u, Done);
    }
  }

  lemma RerouteEvolves(site: Site, s: Session, id: Id, now: real)
    requires Inv(site, s) && MayResume(s, now) && Plant.ReplaceRoute(s.plant, id, s.replan.value.plan).Some?
    ensures var (plant, m) := Plant.ReplaceRoute(s.plant, id, s.replan.value.plan).value;
      Evolves(s, s.(plant := plant, mission := Some(m)).Enter(EXECUTING))
  {
    hide Inv, Core, SafeRoute, Plans;
    RerouteKeeps(site, s, id, now);
    AdapterKeepsMission(site, s.(plant := Plant.ReplaceRoute(s.plant, id, s.replan.value.plan).value.0,
      mission := Some(Plant.ReplaceRoute(s.plant, id, s.replan.value.plan).value.1)).Enter(EXECUTING));
  }

  lemma {:induction false} ResumeEvolves(site: Site, s: Session, id: Id, now: real)
    requires Inv(site, s)
    ensures Evolves(s, DoResume(site, s, id, now).0)
  {
    hide Inv, Core, Evolves, SafeRoute, Plans, Dispatched;
    if MayResume(s, now) && Plant.ReplaceRoute(s.plant, id, s.replan.value.plan).Some? {
      RerouteKeeps(site, s, id, now);
      RerouteEvolves(site, s, id, now);
      var (plant, m) := Plant.ReplaceRoute(s.plant, id, s.replan.value.plan).value;
      var s1 := s.(plant := plant, mission := Some(m)).Enter(EXECUTING);
      var auth := ResumeAuthority(s, now);
      ResumeCovers(site, s, s1, now);
      DriveDelivers(site, s1, id, auth);
      DriveEvolves(site, s1, id, auth);
      var t := Drive(site, s1, id, auth).0;
      CompletionEvolves(site, t);
      EvolvesTransitive(s, s1, t);
      EvolvesTransitive(s, t, t.Enter(COMPLETED));
      assert DoResume(site, s, id, now) == (t.Enter(COMPLETED), Done);
    } else {
      if MayResume(s, now) {
        FailedRerouteLeavesNothing(site, s, id, now);
      }
      PaperworkEvolves(site, s, s);
    }
  }

  lemma CompletionEvolves(site: Site, s: Session)
    requires Core(site, s) && Dispatched(s) && TheMission(s).status == COMPLETED
    ensures Evolves(s, s.Enter(COMPLETED))
  {
    hide SafeRoute, Plans, FlowOk, ApprovedFirst;
  }

  // ---- Every operation ----

  /** An operation, wherever it raises, lets a session evolve: papers stay filed, records only grow, an
      AGV changes place only by a logged move, and the dispatched mission stays the only one. */
  lemma {:induction false} PerformEvolves(site: Site, s: Session, id: Id, op: Operation)
    requires Inv(site, s) && Possible(site, s, op)
    ensures Evolves(s, Perform(site, s, id, op).0)
  {
    hide Inv, Evolves;
    PerformKeeps(site, s, id, op);
    match op
    case Prepare(now, planned, proposed) => PrepareEvolves(site, s, now, planned, proposed);
    case Approve(actor, token, missionId, issuedAt, checkedAt) =>
      ApproveEvolves(site, s, actor, token, missionId, issuedAt, checkedAt);
    case Reject => RejectEvolves(site, s);
    case Start(now) => StartEvolves(site, s, id, now);
    case Stop(trigger, now) => StopEvolves(site, s, id, trigger, now);
    case Replan(now, recovery, planned, checkedAt) => ReplanEvolves(site, s, now, recovery, planned, checkedAt);
    case Resume(now) => ResumeEvolves(site, s, id, now);
    case Override => OverrideEvolves(site, s);
  }
}
