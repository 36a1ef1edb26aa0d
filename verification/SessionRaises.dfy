/** Operations that raise: the state they leave, and what the trace then tells of it. */
module SessionRaises {
  import opened Domain
  import opened Workflow
  import opened Planning
  import opened Safety
  import Plant
  import opened Sessions
  import opened SessionInvariant
  import opened SessionSteps
  import opened SessionOutcomes

  // ---- What the trace tells ----

  /** The trace records every transition of the history. */
  ghost predicate Complete(s: Session) {
    s.flow.history != [] && Recorded(s.trace) == s.flow.history[1..]
  }

  /** The operation raised right after a transition into a state of refusal. */
  ghost predicate Aborted(s: Session, t: Session, result: Result) {
    result.Raised? && t.flow != s.flow && t.flow.current in {FAILED_SAFE, REJECTED}
  }

  lemma EnterCompletes(s: Session, t: Session, target: MissionStatus)
    requires Complete(s) && t.flow == s.flow.To(target) && t.trace == s.trace + [Transitioned(target)]
    ensures Complete(t) && t.flow != s.flow && t.flow.current == target && |t.flow.history| > |s.flow.history|
  {
    TraceGrows(s.trace, Transitioned(target));
    TailAppend(s.flow.history, target);
  }

  lemma AbortMisses(s: Session, t: Session, target: MissionStatus)
    requires Complete(s) && t.flow == s.flow.To(target) && t.trace == s.trace
    ensures !Complete(t) && t.flow != s.flow && t.flow.current == target && |t.flow.history| > |s.flow.history|
  {
    assert |t.flow.history[1..]| == |Recorded(s.trace)| + 1;
  }

  lemma PrepareTraced(site: Site, s: Session, now: real, planned: Outcome, proposed: Option<Proposal>)
    requires Complete(s)
    ensures var (t, result) := DoPrepare(site, s, now, planned, proposed);
      Complete(t) <==> !Aborted(s, t, result)
  {
    hide RouteProof, Plant.Capture, Complete;
    if s.flow.current == INTENT && Plant.OnMap(site, s.plant.world) {
      var s1 := Observe(site, s, now);
      EnterCompletes(s, s1, OBSERVED);
      if !BothLive(s1) {
        AbortMisses(s1, s1.Abort(FAILED_SAFE), FAILED_SAFE);
      } else if planned.Planned? {
        ProposeTraced(s1, planned.plan, s1.snapshot.value, proposed);
      }
    } else {
      SameFlow(s, DoPrepare(site, s, now, planned, proposed).0);
    }
  }

  lemma ProposeTraced(s1: Session, plan: Plan, snapshot: Snapshot, proposed: Option<Proposal>)
    requires Complete(s1)
    ensures var (t, result) := Propose(s1, plan, snapshot, proposed);
      && |t.flow.history| > |s1.flow.history|
      && (Complete(t) <==> !(result.Raised? && t.flow.current in {FAILED_SAFE, REJECTED}))
  {
    hide RouteProof, Complete;
    var s2 := s1.(plan := Some(plan)).Enter(PLANNED);
    EnterCompletes(s1, s2, PLANNED);
    if proposed.Some? {
      var s3 := s2.(proposal := proposed).Enter(PROPOSED);
      EnterCompletes(s2, s3, PROPOSED);
      var proof := RouteProof(s1.intent, plan, snapshot, proposed.value);
      if proof.passed {
        EnterCompletes(s3, s3.(proof := Some(proof)).Enter(VERIFIED), VERIFIED);
      } else {
        AbortMisses(s3, s3.(proof := Some(proof)).Abort(REJECTED), REJECTED);
      }
    }
  }

  lemma SameFlow(s: Session, t: Session)
    requires Complete(s) && t.flow == s.flow && Recorded(t.trace) == Recorded(s.trace)
    ensures Complete(t)
  {
  }

  lemma ApproveTraced(s: Session, actor: Id, token: Id, missionId: Id, issuedAt: real, checkedAt: real)
    requires Complete(s)
    ensures var (t, result) := DoApprove(s, actor, token, missionId, issuedAt, checkedAt);
      Complete(t) && !Aborted(s, t, result)
  {
    hide Complete, BindApproval, IssueApproval;
    var t := DoApprove(s, actor, token, missionId, issuedAt, checkedAt).0;
    if t.flow == s.flow {
      SameFlow(s, t);
    } else {
      EnterCompletes(s, t, APPROVED);
    }
  }

  lemma {:induction false} DriveTraced(site: Site, s: Session, id: Id, auth: Authority)
    ensures Drive(site, s, id, auth).0.flow == s.flow
    ensures Recorded(Drive(site, s, id, auth).0.trace) == Recorded(s.trace)
    decreases Remaining(s.plant, id)
  {
    if s.mission.Some? && s.mission.value.status == EXECUTING && Plant.Advance(site, s.plant, id).Some? {
      var (plant, m) := Plant.Advance(site, s.plant, id).value;
      var t := Moved(s, plant, m, auth);
      TraceGrows(s.trace, t.trace[|s.trace|]);
      DriveTraced(site, t, id, auth);
    }
  }

  lemma StartTraced(site: Site, s: Session, id: Id, now: real)
    requires Complete(s)
    ensures var (t, result) := DoStart(site, s, id, now);
      Complete(t) <==> !Aborted(s, t, result)
  {
    hide Complete, Plant.Start, Plant.Advance, Plant.StartLeft, Plant.AdvanceLeft, ValidFor;
    var (t, result) := DoStart(site, s, id, now);
    if t.flow == s.flow {
      SameFlow(s, t);
    } else if t.flow.current == FAILED_SAFE {
      AbortMisses(s, t, FAILED_SAFE);
    } else {
      var s1 := s.Enter(EXECUTING);
      EnterCompletes(s, s1, EXECUTING);
      if result.Done? {
        TraceGrows(s1.trace, t.trace[|s1.trace|]);
      }
      SameFlow(s1, t);
    }
  }

  lemma StopTraced(site: Site, s: Session, id: Id, trigger: string, now: real)
    requires Complete(s)
    ensures var (t, result) := DoStop(site, s, id, trigger, now);
      Complete(t) && !Aborted(s, t, result)
  {
    hide Complete, Plant.LocalStop, Plant.LocalStopLeft, Plant.Blocked;
    if s.flow.current == EXECUTING && Plant.BlockageOk(site) {
      var s1 := s.(plant := s.plant.(world := Plant.Blocked(site, s.plant.world, now))).Enter(BLOCKED);
      EnterCompletes(s, s1, BLOCKED);
      var t := DoStop(site, s, id, trigger, now).0;
      if t.flow == s1.flow {
        SameFlow(s1, t);
      } else {
        EnterCompletes(s1, t, SAFE_STOP);
      }
    }
  }

  lemma ReplanTraced(site: Site, s: Session, now: real, recovery: Option<Recovery>, planned: Outcome, checkedAt: real)
    requires Complete(s)
    ensures var (t, result) := DoReplan(site, s, now, recovery, planned, checkedAt);
      Complete(t) <==> !Aborted(s, t, result)
  {
    hide Complete, RouteProof, BindApproval, Plant.Capture;
    if MayReplan(s) && Plant.OnMap(site, s.plant.world) && recovery.Some? {
      var s1 := s.CountSnapshot();
      SameFlow(s, s1);
      if Preserves(s, recovery.value) {
        var s2 := s1.Enter(REPLANNING);
        EnterCompletes(s1, s2, REPLANNING);
        if planned.Planned? {
          EquivalentTraced(s2, planned.plan, Plant.Capture(site, s1.plant.world, now), checkedAt);
        }
      } else {
        AbortMisses(s1, s1.Abort(FAILED_SAFE), FAILED_SAFE);
      }
    } else {
      SameFlow(s, DoReplan(site, s, now, recovery, planned, checkedAt).0);
    }
  }

  lemma EquivalentTraced(s2: Session, plan: Plan, snapshot: Snapshot, checkedAt: real)
    requires Complete(s2) && s2.proposal.Some? && s2.approval.Some?
    ensures var (t, result) := Equivalent(s2, plan, snapshot, checkedAt);
      && |t.flow.history| > |s2.flow.history|
      && (Complete(t) <==> !(result.Raised? && t.flow.current in {FAILED_SAFE, REJECTED}))
  {
    hide Complete, RouteProof, BindApproval;
    var (t, result) := Equivalent(s2, plan, snapshot, checkedAt);
    if result.Done? {
      EnterCompletes(s2, t, VERIFIED);
    } else {
      AbortMisses(s2, t, FAILED_SAFE);
    }
  }

  lemma ResumeTraced(site: Site, s: Session, id: Id, now: real)
    requires Complete(s)
    ensures var (t, result) := DoResume(site, s, id, now);
      Complete(t) && !Aborted(s, t, result)
  {
    hide Complete, Plant.ReplaceRoute, Plant.ReplaceRouteLeft, ValidFor, Drive;
    if MayResume(s, now) && Plant.ReplaceRoute(s.plant, id, s.replan.value.plan).Some? {
      var (plant, m) := Plant.ReplaceRoute(s.plant, id, s.replan.value.plan).value;
      var s1 := s.(plant := plant, mission := Some(m)).Enter(EXECUTING);
      EnterCompletes(s, s1, EXECUTING);
      DriveTraced(site, s1, id, ResumeAuthority(s, now));
      var (s2, result) := Drive(site, s1, id, ResumeAuthority(s, now));
      SameFlow(s1, s2);
      EnterCompletes(s2, s2.Enter(COMPLETED), COMPLETED);
    } else {
      SameFlow(s, DoResume(site, s, id, now).0);
    }
  }

  /** Where the trace recorded every transition before an operation, it does so after it exactly unless
      the operation aborted. */
  lemma {:induction false} AbortsGoUnrecorded(site: Site, s: Session, id: Id, op: Operation)
    requires Complete(s)
    ensures var (t, result) := Perform(site, s, id, op);
      Complete(t) <==> !Aborted(s, t, result)
  {
    hide Complete, Aborted;
    match op
    case Prepare(now, planned, proposed) => PrepareTraced(site, s, now, planned, proposed);
    case Approve(actor, token, missionId, issuedAt, checkedAt) =>
      ApproveTraced(s, actor, token, missionId, issuedAt, checkedAt);
    case Reject => RejectTraced(s);
    case Start(now) => StartTraced(site, s, id, now);
    case Stop(trigger, now) => StopTraced(site, s, id, trigger, now);
    case Replan(now, recovery, planned, checkedAt) => ReplanTraced(site, s, now, recovery, planned, checkedAt);
    case Resume(now) => ResumeTraced(site, s, id, now);
    case Override => OverrideTraced(s);
  }

  lemma RejectTraced(s: Session)
    requires Complete(s)
    ensures Complete(DoReject(s).0) && !Aborted(s, DoReject(s).0, DoReject(s).1)
  {
    hide Complete;
    EnterCompletes(s, s.Enter(REJECTED), REJECTED);
  }

  lemma OverrideTraced(s: Session)
    requires Complete(s)
    ensures Complete(DoOverride(s).0) && !Aborted(s, DoOverride(s).0, DoOverride(s).1)
  {
    hide Complete;
    EnterCompletes(s, s.(approval := None).Enter(FAILED_SAFE), FAILED_SAFE);
  }

  /** One such abort: the destination is not a live entity. The history ends in FAILED_SAFE, and the
      trace stops at OBSERVED. */
  lemma UnknownDestinationGoesUnrecorded(site: Site, world: Plant.World, intent: Intent, id: Id, now: real,
    planned: Outcome, proposed: Option<Proposal>)
    requires Plant.OnMap(site, world) && intent.destination !in world.locations
    ensures var (t, result) := Perform(site, New(world, intent), id, Prepare(now, planned, proposed));
      && result == Raised(NotLive) && t.flow.history == [INTENT, OBSERVED, FAILED_SAFE]
      && Recorded(t.trace) == [OBSERVED] && !Complete(t)
  {
    hide Plant.Capture;
    TraceGrows([], Transitioned(OBSERVED));
    assert [] + [Transitioned(OBSERVED)] == [Transitioned(OBSERVED)];
  }

  // ---- Where a raise leads ----

  /** An operation that raises after a transition leaves one of the final states, except that a start
      may leave EXECUTING. */
  lemma {:induction false} RaisesLeadNowhere(site: Site, s: Session, id: Id, op: Operation)
    requires Inv(site, s) && Possible(site, s, op)
    requires Perform(site, s, id, op).1.Raised? && Perform(site, s, id, op).0.flow != s.flow
    ensures var t := Perform(site, s, id, op).0;
      t.flow.current in FINAL_STATES || (op.Start? && t.flow.current == EXECUTING)
  {
    hide Inv, RouteProof, BindApproval, Plant.Capture, Possible, Plant.Start, Plant.Advance, Plant.LocalStop;
    match op
    case Resume(now) =>
      if MayResume(s, now) {
        MayRerouteExactly(site, s, id, now);
        if Plant.ReplaceRoute(s.plant, id, s.replan.value.plan).Some? {
          ResumeEffect(site, s, id, now);
          assert false;
        }
      }
    case Approve(actor, token, missionId, issuedAt, checkedAt) =>
      ApproveRaises(site, s, actor, token, missionId, issuedAt, checkedAt);
    case Stop(trigger, now) => StopRaises(site, s, id, trigger, now);
    case _ =>
  }

  lemma ApproveRaises(site: Site, s: Session, actor: Id, token: Id, missionId: Id, issuedAt: real, checkedAt: real)
    requires Inv(site, s) && DoApprove(s, actor, token, missionId, issuedAt, checkedAt).1.Raised?
    ensures DoApprove(s, actor, token, missionId, issuedAt, checkedAt).0.flow == s.flow
  {
    hide Inv, BindApproval, IssueApproval;
    if s.flow.current == VERIFIED {
      VerifiedFacts(site, s);
    }
  }

  lemma StopRaises(site: Site, s: Session, id: Id, trigger: string, now: real)
    requires Inv(site, s) && DoStop(site, s, id, trigger, now).1.Raised?
    ensures var t := DoStop(site, s, id, trigger, now).0;
      t.flow == s.flow || t.flow.current == BLOCKED
  {
    hide Inv;
  }

  /** And that is exactly when the approval still holds but the mission was dispatched before, or is not
      the one named in the call. */
  lemma {:induction false} StartRaisesInExecuting(site: Site, s: Session, id: Id, now: real)
    requires Inv(site, s)
    ensures var (t, result) := DoStart(site, s, id, now);
      (result.Raised? && t.flow != s.flow && t.flow.current == EXECUTING) <==>
        && s.flow.current == APPROVED && s.mission.Some? && s.approval.Some?
        && ValidFor(s.approval.value, s.proposal.value, now)
        && (HasExecuted(s) || s.mission.value.id != id)
  {
    hide SafeRoute, Plans, ApprovedFirst, FlowOk, MovesOk, CargoOk;
    if s.flow.current == APPROVED && s.mission.Some? && s.approval.Some?
       && ValidFor(s.approval.value, s.proposal.value, now) {
      StartCommits(site, s, id, now);
      if HasExecuted(s) {
        SecondStartKeeps(site, s, id, now);
      } else {
        FirstStart(site, s, id, now);
      }
    }
  }
}
