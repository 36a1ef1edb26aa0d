/** What the whole life of a session shows, from the world it was created in. */
module SessionLives {
  import opened Domain
  import opened Workflow
  import opened Planning
  import opened Safety
  import Plant
  import opened Sessions
  import opened SessionInvariant
  import opened SessionSteps
  import opened SessionEffects
  import opened SessionOutcomes
  import opened SessionMotion

  /** It evolved from a new session; an execution moved its AGV, and a completion came at the end of a
      whole recovery and moved the AGV once before the replanned route; and without a blockage that can
      be recorded it was never blocked. */
  ghost predicate Lived(site: Site, world: Plant.World, s: Session) {
    Evolves(New(world, s.intent), s) && SetOut(s) && Ended(s) && Unhindered(site, s)
  }

  ghost predicate SetOut(s: Session) { HasExecuted(s) ==> s.moves != [] }

  ghost predicate Ended(s: Session) {
    s.flow.current == COMPLETED ==>
      s.replan.Some? && |s.moves| == |s.replan.value.plan.nodes| && EndsRecovered(s.flow.history)
  }

  ghost predicate Unhindered(site: Site, s: Session) { BLOCKED in s.flow.history ==> Plant.BlockageOk(site) }

  /** The mission that a call may name: the one the session waits to execute. */
  ghost predicate Named(s: Session, id: Id) { HasExecuted(s) || (s.mission.Some? && s.mission.value.id == id) }

  // ---- The first execution ----

  /** Only a start makes a first execution. */
  lemma OnlyStartExecutes(site: Site, s: Session, id: Id, op: Operation)
    requires Inv(site, s) && !op.Start?
    ensures HasExecuted(Perform(site, s, id, op).0) ==> HasExecuted(s)
  {
    hide StageOk, CargoOk, AdapterOk, CopyOk, MovesOk, ReplanOk, TraceOk, RouteProof, BindApproval, Plant.Capture,
      Plant.LocalStop, Plant.LocalStopLeft, Plant.Blocked, Drive, Plant.ReplaceRoute, ValidFor;
    match op
    case Prepare(now, planned, proposed) => PrepareDoesNotExecute(site, s, now, planned, proposed);
    case Replan(now, recovery, planned, checkedAt) => ReplanDoesNotExecute(site, s, now, recovery, planned, checkedAt);
    case Stop(trigger, now) => StopDoesNotExecute(site, s, id, trigger, now);
    case _ =>
  }

  lemma PrepareDoesNotExecute(site: Site, s: Session, now: real, planned: Outcome, proposed: Option<Proposal>)
    ensures HasExecuted(DoPrepare(site, s, now, planned, proposed).0) ==> HasExecuted(s)
    ensures BLOCKED in DoPrepare(site, s, now, planned, proposed).0.flow.history ==> BLOCKED in s.flow.history
  {
    hide RouteProof, Plant.Capture;
  }

  lemma ReplanDoesNotExecute(site: Site, s: Session, now: real, recovery: Option<Recovery>, planned: Outcome,
    checkedAt: real)
    ensures var t := DoReplan(site, s, now, recovery, planned, checkedAt).0;
      && (HasExecuted(t) ==> HasExecuted(s)) && (BLOCKED in t.flow.history ==> BLOCKED in s.flow.history)
  {
    hide RouteProof, BindApproval, Plant.Capture;
  }

  lemma StopDoesNotExecute(site: Site, s: Session, id: Id, trigger: string, now: real)
    ensures var t := DoStop(site, s, id, trigger, now).0;
      && (HasExecuted(t) ==> HasExecuted(s))
      && (BLOCKED in t.flow.history ==> BLOCKED in s.flow.history || Plant.BlockageOk(site))
  {
    hide Plant.LocalStop, Plant.LocalStopLeft, Plant.Blocked;
  }

  lemma SetOutKept(site: Site, s: Session, id: Id, op: Operation)
    requires Inv(site, s) && Possible(site, s, op) && SetOut(s) && (op.Start? && s.mission.Some? ==> Named(s, id))
    ensures SetOut(Perform(site, s, id, op).0)
  {
    hide Inv, Perform, Possible, HasExecuted;
    PerformEvolves(site, s, id, op);
    if !HasExecuted(s) {
      match op
      case Start(now) => FirstExecutionMoves(site, s, id, now);
      case _ => OnlyStartExecutes(site, s, id, op);
    }
  }

  lemma FirstExecutionMoves(site: Site, s: Session, id: Id, now: real)
    requires Inv(site, s) && !HasExecuted(s) && (s.mission.Some? ==> Named(s, id))
    ensures SetOut(Perform(site, s, id, Start(now)).0)
  {
    hide Inv, Plant.Start, Plant.Advance, Plant.StartLeft, Plant.AdvanceLeft;
    if s.flow.current == APPROVED && s.mission.Some? && s.approval.Some? && s.proposal.Some?
       && ValidFor(s.approval.value, s.proposal.value, now) {
      FirstStart(site, s, id, now);
    }
  }

  // ---- Completion ----

  lemma EndedKept(site: Site, s: Session, id: Id, op: Operation)
    requires Inv(site, s) && MotionOk(s) && SetOut(s) && Ended(s)
    ensures Ended(Perform(site, s, id, op).0)
  {
    hide Inv, Perform, MotionOk, HasExecuted, EndsRecovered;
    if s.flow.current == COMPLETED {
      FinalStatesAreFrozen(site, s, id, op);
    } else if op.Resume? {
      ResumeEnds(site, s, id, op.now);
    } else {
      OnlyResumeCompletes(site, s, id, op);
    }
  }

  lemma OnlyResumeCompletes(site: Site, s: Session, id: Id, op: Operation)
    requires s.flow.current != COMPLETED && !op.Resume?
    ensures Perform(site, s, id, op).0.flow.current != COMPLETED
  {
    hide RouteProof, BindApproval, Plant.Capture, DoStart;
    match op
    case Start(now) => StartDoesNotComplete(site, s, id, now);
    case _ =>
  }

  lemma ResumeEnds(site: Site, s: Session, id: Id, now: real)
    requires Inv(site, s) && MotionOk(s) && SetOut(s) && s.flow.current != COMPLETED
    ensures Ended(Perform(site, s, id, Resume(now)).0)
  {
    hide Inv, DoResume, EndsRecovered;
    if MayResume(s, now) && Plant.ReplaceRoute(s.plant, id, s.replan.value.plan).Some? {
      ResumeEffect(site, s, id, now);
      ResumeKeepsPapers(site, s, id, now);
      ReplannedHasExecuted(site, s);
      VerifiedAgain(s.flow.history);
      assert |s.moves| == 1;
    } else {
      ResumeRefused(site, s, id, now);
    }
  }

  lemma ReplannedHasExecuted(site: Site, s: Session)
    requires Inv(site, s) && s.replan.Some?
    ensures HasExecuted(s) && FlowOk(s.flow)
  {
  }

  // ---- Blocks ----

  lemma UnhinderedKept(site: Site, s: Session, id: Id, op: Operation)
    requires Inv(site, s) && Unhindered(site, s)
    ensures Unhindered(site, Perform(site, s, id, op).0)
  {
    hide Inv, RouteProof, BindApproval, Plant.Capture, Plant.BlockageOk, DoPrepare, DoStop, DoReplan, DoResume,
      Plant.Start, Plant.Advance, Plant.StartLeft, Plant.AdvanceLeft, ValidFor;
    match op
    case Prepare(now, planned, proposed) => PrepareDoesNotExecute(site, s, now, planned, proposed);
    case Replan(now, recovery, planned, checkedAt) => ReplanDoesNotExecute(site, s, now, recovery, planned, checkedAt);
    case Stop(trigger, now) => StopDoesNotExecute(site, s, id, trigger, now);
    case Resume(now) => ResumeDoesNotBlock(site, s, id, now);
    case _ =>
  }

  lemma ResumeDoesNotBlock(site: Site, s: Session, id: Id, now: real)
    requires Inv(site, s)
    ensures BLOCKED in DoResume(site, s, id, now).0.flow.history ==> BLOCKED in s.flow.history
  {
    hide Inv, DoResume;
    if MayResume(s, now) && Plant.ReplaceRoute(s.plant, id, s.replan.value.plan).Some? {
      ResumeKeepsPapers(site, s, id, now);
    } else {
      ResumeRefused(site, s, id, now);
    }
  }

  // ---- The trail ----

  /** The places of the selected AGV since the session was created. */
  function Trail(world: Plant.World, s: Session): (trail: seq<Id>)
    requires s.plan.Some? && s.plan.value.agv in world.agvs
    ensures |trail| == 1 + |s.moves| && trail[0] == world.agvs[s.plan.value.agv].node
    ensures forall i :: 0 <= i < |s.moves| ==> trail[i + 1] == s.moves[i].node
  {
    [world.agvs[s.plan.value.agv].node] + seq(|s.moves|, i requires 0 <= i < |s.moves| => s.moves[i].node)
  }

  ghost predicate Joined(edges: seq<Edge>, a: Id, b: Id) { exists e :: e in edges && Joins(e, a, b) }

  lemma BirthPlace(world: Plant.World, s: Session)
    requires Evolves(New(world, s.intent), s)
    ensures s.plant.world.agvs.Keys == world.agvs.Keys
  {
  }

  /** The moves of a completed session visit the replanned nodes, its first one the origin of the replan. */
  lemma CompletedMoves(site: Site, s: Session)
    requires MotionOk(s) && Ended(s) && s.flow.current == COMPLETED
    ensures s.replan.Some? && s.plan.Some? && |s.moves| == |s.replan.value.plan.nodes|
    ensures forall i :: 0 <= i < |s.moves| ==> s.moves[i].node == s.replan.value.plan.nodes[i]
    ensures s.moves[0].node == s.plan.value.nodes[1]
  {
    var nodes := s.replan.value.plan.nodes;
    assert |s.moves| - (|nodes| - 1) == 1 && s.moves[..1][0] == s.moves[0];
    forall i | 0 < i < |s.moves| ensures s.moves[i].node == nodes[i] {
      assert s.moves[i] == s.moves[1..][i - 1];
    }
  }

  lemma PlanLinked(site: Site, s: Session)
    requires Inv(site, s) && HasExecuted(s)
    ensures s.plan.Some? && |s.plan.value.nodes| >= 2 && Linked(site.edges, s.plan.value.nodes, 0)
    ensures s.plan.value.agv in s.plant.world.agvs
  {
    hide SafeRoute, Plans;
    PreparedFacts(site, s);
    PlanFollowsEdges(s.snapshot.value, s.intent, None, None, s.plan.value);
  }

  lemma MovedHasExecuted(site: Site, s: Session)
    requires Inv(site, s) && s.moves != []
    ensures HasExecuted(s)
  {
    if !HasExecuted(s) {
      NothingMovedYet(site, s);
    }
  }

  lemma {:induction false} TrailFollowsEdges(site: Site, world: Plant.World, s: Session)
    requires Inv(site, s) && MotionOk(s) && CompletedOk(site, s) && Standing(s) && Lived(site, world, s)
    requires s.moves != []
    ensures s.plan.Some? && s.plan.value.agv in world.agvs
    ensures var plan, trail := s.plan.value, Trail(world, s);
        && trail[1] == plan.nodes[1]
        && (forall i :: 0 < i < |trail| - 1 ==> Linked(site.edges, trail, i))
        && (Linked(site.edges, trail, 0) <==> Joined(site.edges, trail[0], plan.nodes[1]))
        && (trail[0] == plan.nodes[0] ==> Linked(site.edges, trail, 0))
        && plan.agv in s.plant.world.agvs && s.plant.world.agvs[plan.agv].node == trail[|trail| - 1]
        && (s.flow.current == COMPLETED ==> s.replan.Some? && trail[1..] == s.replan.value.plan.nodes)
  {
    hide Inv, Evolves, HasExecuted, Renewed, Original, Plant.Arrived, Dispatched, Unhindered, EndsRecovered;
    BirthPlace(world, s);
    MovedHasExecuted(site, s);
    PlanLinked(site, s);
    var trail := Trail(world, s);
    if s.flow.current == COMPLETED {
      CompletedMoves(site, s);
      var nodes := s.replan.value.plan.nodes;
      assert trail[1..] == nodes;
      forall i | 0 < i < |trail| - 1 ensures Linked(site.edges, trail, i) {
        assert Linked(site.edges, nodes, i - 1);
      }
    }
  }

  // ---- The mission that waits ----

  /** The mission was approved, and may be named by the start that executes it. */
  ghost predicate Awaits(s: Session, id: Id) { APPROVED in s.flow.history && Named(s, id) }

  lemma AwaitsKept(site: Site, s: Session, id: Id, op: Operation, mission: Id)
    requires Inv(site, s) && Possible(site, s, op) && Awaits(s, mission)
    ensures Awaits(Perform(site, s, id, op).0, mission)
  {
    hide Inv, Perform, Possible, HasExecuted, KeepsMission, MovesLogged, KeepsLoads;
    PerformEvolves(site, s, id, op);
    if HasExecuted(s) {
      StillExecuted(s, Perform(site, s, id, op).0);
    } else {
      WaitingState(site, s);
      if s.flow.current == APPROVED {
        ApprovedWaitsOn(site, s, id, op);
      } else {
        FinalStatesAreFrozen(site, s, id, op);
      }
    }
  }

  lemma StillExecuted(s: Session, t: Session)
    requires HasExecuted(s) && Grows(s, t)
    ensures HasExecuted(t)
  {
  }

  lemma WaitingState(site: Site, s: Session)
    requires Inv(site, s) && APPROVED in s.flow.history && !HasExecuted(s)
    ensures s.flow.current in {APPROVED, REJECTED, FAILED_SAFE}
  {
    hide StageOk, CargoOk, AdapterOk, CopyOk, MovesOk, ReplanOk, TraceOk;
    ApprovedWaits(s.flow.history);
  }

  lemma ApprovedWaitsOn(site: Site, s: Session, id: Id, op: Operation)
    requires s.flow.current == APPROVED
    ensures var t := Perform(site, s, id, op).0;
      HasExecuted(t) || t.mission == s.mission
  {
    hide RouteProof, BindApproval, Plant.Capture, Plant.Start, Plant.Advance, Plant.StartLeft, Plant.AdvanceLeft,
      ValidFor;
    match op
    case Prepare(now, planned, proposed) =>
      assert DoPrepare(site, s, now, planned, proposed) == (s, Raised(WrongState));
    case Replan(now, recovery, planned, checkedAt) =>
      assert DoReplan(site, s, now, recovery, planned, checkedAt) == (s, Raised(WrongState));
    case _ =>
  }

  // ---- A life ----

  lemma {:induction false} PerformLives(site: Site, world: Plant.World, s: Session, id: Id, op: Operation)
    requires Inv(site, s) && MotionOk(s) && Possible(site, s, op) && Lived(site, world, s)
    requires op.Start? && s.mission.Some? ==> Named(s, id)
    ensures Lived(site, world, Perform(site, s, id, op).0)
  {
    hide Inv, MotionOk, Perform, Possible, SetOut, Ended, Unhindered, MovesLogged, KeepsMission, KeepsLoads;
    PerformEvolves(site, s, id, op);
    var t := Perform(site, s, id, op).0;
    assert Evolves(New(world, s.intent), t) && t.intent == s.intent by {
      EvolvesTransitive(New(world, s.intent), s, t);
    }
    SetOutKept(site, s, id, op);
    EndedKept(site, s, id, op);
    UnhinderedKept(site, s, id, op);
  }

  // ---- Approvals and orders ----

  /** An approval comes from an operation that approves, and commits. */
  lemma {:induction false} ApprovalsAreGranted(site: Site, s: Session, id: Id, op: Operation)
    requires Inv(site, s)
    ensures var (t, result) := Perform(site, s, id, op);
      || t.approval == s.approval || t.approval == None
      || (op.Approve? && result == Done && s.proposal.Some? && t.approval == Some(
            IssueApproval(op.token, s.proposal.value.hash, GoalOf(s.intent), op.actor, op.issuedAt)))
  {
    hide Inv, RouteProof, BindApproval, Plant.Capture, DoResume, Plant.Start, Plant.Advance, Plant.StartLeft,
      Plant.AdvanceLeft, ValidFor, IssueApproval;
    match op
    case Prepare(now, planned, proposed) => PrepareGrantsNothing(site, s, now, planned, proposed);
    case Approve(actor, token, missionId, issuedAt, checkedAt) =>
      if s.flow.current == VERIFIED {
        VerifiedIsPrepared(site, s);
      }
    case Replan(now, recovery, planned, checkedAt) => ReplanGrantsNothing(site, s, now, recovery, planned, checkedAt);
    case Resume(now) =>
      if MayResume(s, now) && Plant.ReplaceRoute(s.plant, id, s.replan.value.plan).Some? {
        ResumeKeepsPapers(site, s, id, now);
      } else {
        ResumeRefused(site, s, id, now);
      }
    case _ =>
  }

  lemma VerifiedIsPrepared(site: Site, s: Session)
    requires Inv(site, s) && s.flow.current == VERIFIED
    ensures s.plan.Some? && s.proposal.Some?
  {
    hide SafeRoute, Plans;
    VerifiedFacts(site, s);
  }

  lemma PrepareGrantsNothing(site: Site, s: Session, now: real, planned: Outcome, proposed: Option<Proposal>)
    ensures var t := DoPrepare(site, s, now, planned, proposed).0;
      t.approval == s.approval && t.moves == s.moves
  {
    hide RouteProof, Plant.Capture;
  }

  lemma ReplanGrantsNothing(site: Site, s: Session, now: real, recovery: Option<Recovery>, planned: Outcome,
    checkedAt: real)
    ensures var t := DoReplan(site, s, now, recovery, planned, checkedAt).0;
      t.approval == s.approval && t.moves == s.moves
  {
    hide RouteProof, BindApproval, Plant.Capture;
  }

  /** The motions from `n` on were made under this approval. */
  ghost predicate Under(moves: seq<Move>, n: nat, approval: Approval) {
    forall i :: n <= i < |moves| ==> moves[i].auth.approval == approval
  }

  /** A motion comes from a start or a resume that commits, under the approval then filed. */
  lemma {:induction false} MotionsAreOrdered(site: Site, s: Session, id: Id, op: Operation)
    requires Inv(site, s)
    ensures var (t, result) := Perform(site, s, id, op);
      || t.moves == s.moves
      || ((op.Start? || op.Resume?) && result == Done && s.approval.Some? && s.moves <= t.moves
          && Under(t.moves, |s.moves|, s.approval.value))
  {
    hide Inv, RouteProof, BindApproval, Plant.Capture, DoResume, DoStart, IssueApproval, Plant.LocalStop,
      Plant.LocalStopLeft, Plant.Blocked;
    match op
    case Prepare(now, planned, proposed) => PrepareGrantsNothing(site, s, now, planned, proposed);
    case Replan(now, recovery, planned, checkedAt) => ReplanGrantsNothing(site, s, now, recovery, planned, checkedAt);
    case Start(now) => StartOrders(site, s, id, now);
    case Resume(now) =>
      if MayResume(s, now) && Plant.ReplaceRoute(s.plant, id, s.replan.value.plan).Some? {
        ResumeEffect(site, s, id, now);
      } else {
        ResumeRefused(site, s, id, now);
      }
    case _ =>
  }

  lemma StartOrders(site: Site, s: Session, id: Id, now: real)
    requires Inv(site, s)
    ensures var (t, result) := DoStart(site, s, id, now);
      t.moves == s.moves || (result == Done && s.approval.Some? && s.moves <= t.moves
                              && Under(t.moves, |s.moves|, s.approval.value))
  {
    hide Inv, DoStart;
    StartKeepsSnapshot(site, s, id, now);
    StartCommits(site, s, id, now);
    if DoStart(site, s, id, now).1.Done? {
      ApprovedFacts(site, s);
      FirstStart(site, s, id, now);
    }
  }
}
