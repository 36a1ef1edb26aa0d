/** Each operation in one piece: when it raises which error, and the session that it leaves, field by
    field, with its states and spans listed. */
module SessionForms {
  import opened Domain
  import opened Workflow
  import opened Planning
  import opened Safety
  import Plant
  import opened Sessions
  import opened SessionInvariant
  import opened SessionSteps
  import opened SessionEffects
  import opened SessionOutcomes

  /** The session after these states were entered, all but the last `silent` of them on the trace. */
  function Through(s: Session, states: seq<MissionStatus>, silent: nat): Session
    requires silent <= |states|
  {
    s.(flow := Flow(if states == [] then s.flow.current else states[|states| - 1], s.flow.history + states),
       trace := s.trace + Entered(states[..|states| - silent]))
  }

  /** The spans for these transitions. */
  function Entered(states: seq<MissionStatus>): (spans: seq<Span>)
    ensures |spans| == |states|
  {
    seq(|states|, i requires 0 <= i < |states| => Transitioned(states[i]))
  }

  /** The session with one more snapshot counted. */
  function Snapped(s: Session): Session {
    s.(plant := s.plant.(world := s.plant.world.(snapshots := s.plant.world.snapshots + 1)))
  }

  ghost predicate Known(s: Session, location: Id) { location in s.plant.world.locations }

  lemma EnterOne(s: Session, state: MissionStatus)
    ensures s.Enter(state) == Through(s, [state], 0) && s.Abort(state) == Through(s, [state], 1)
  {
    assert Entered([state][..1]) == [Transitioned(state)] && Entered([state][..0]) == [];
  }

  lemma EnterNext(s: Session, states: seq<MissionStatus>, state: MissionStatus)
    ensures Through(s, states, 0).Enter(state) == Through(s, states + [state], 0)
    ensures Through(s, states, 0).Abort(state) == Through(s, states + [state], 1)
  {
    var longer := states + [state];
    assert states[..|states|] == states == longer[..|longer| - 1] && longer[..|longer|] == longer;
    assert Entered(longer) == Entered(states) + [Transitioned(state)];
    assert s.flow.history + longer == s.flow.history + states + [state];
    assert s.trace + Entered(longer) == s.trace + Entered(states) + [Transitioned(state)];
  }

  /** Two, three or four states, one after the other. */
  lemma EnterTwo(s: Session, a: MissionStatus, b: MissionStatus)
    ensures s.Enter(a).Enter(b) == Through(s, [a, b], 0) && s.Enter(a).Abort(b) == Through(s, [a, b], 1)
  {
    EnterOne(s, a);
    EnterNext(s, [a], b);
    assert [a] + [b] == [a, b];
  }

  lemma EnterFour(s: Session, a: MissionStatus, b: MissionStatus, c: MissionStatus, d: MissionStatus)
    ensures s.Enter(a).Enter(b).Enter(c).Enter(d) == Through(s, [a, b, c, d], 0)
    ensures s.Enter(a).Enter(b).Enter(c).Abort(d) == Through(s, [a, b, c, d], 1)
  {
    EnterTwo(s, a, b);
    EnterNext(s, [a, b], c);
    assert [a, b] + [c] == [a, b, c];
    EnterNext(s, [a, b, c], d);
    assert [a, b, c] + [d] == [a, b, c, d];
  }

  // ---- Preparation and decision ----

  lemma {:induction false} PrepareForm(site: Site, s: Session, now: real, planned: Outcome, proposed: Option<Proposal>)
    ensures var (t, result) := DoPrepare(site, s, now, planned, proposed);
      var taken := Plant.Capture(site, Plant.Counted(s.plant.world), now);
      var seen := Snapped(s).(snapshot := Some(taken));
      if s.flow.current != INTENT then (t, result) == (s, Raised(WrongState))
      else if exists a :: a in s.plant.world.agvs && s.plant.world.agvs[a].node !in site.nodes then
        (t, result) == (Snapped(s), Raised(OffMap))
      else if !Known(s, s.intent.source) || !Known(s, s.intent.destination) then
        (t, result) == (Through(seen, [OBSERVED, FAILED_SAFE], 1), Raised(NotLive))
      else if !planned.Planned? then (t, result) == (Through(seen, [OBSERVED], 0), Raised(NoPlan))
      else
        var made := seen.(plan := Some(planned.plan));
        if proposed.None? then (t, result) == (Through(made, [OBSERVED, PLANNED], 0), Raised(ProviderFailed))
        else
          var proof := RouteProof(s.intent, planned.plan, taken, proposed.value);
          var filed := made.(proposal := proposed, proof := Some(proof));
          (t, result) ==
            if proof.passed then (Through(filed, [OBSERVED, PLANNED, PROPOSED, VERIFIED], 0), Done)
            else (Through(filed, [OBSERVED, PLANNED, PROPOSED, REJECTED], 1), Raised(ProofFailed))
  {
    hide RouteProof, Plant.Capture, Through;
    var taken := Plant.Capture(site, Plant.Counted(s.plant.world), now);
    var seen := Snapped(s).(snapshot := Some(taken));
    EnterOne(seen, OBSERVED);
    EnterTwo(seen, OBSERVED, FAILED_SAFE);
    if planned.Planned? {
      var made := seen.(plan := Some(planned.plan));
      EnterTwo(made, OBSERVED, PLANNED);
      if proposed.Some? {
        var filed := made.(proposal := proposed,
          proof := Some(RouteProof(s.intent, planned.plan, taken, proposed.value)));
        EnterFour(filed, OBSERVED, PLANNED, PROPOSED, VERIFIED);
        EnterFour(filed, OBSERVED, PLANNED, PROPOSED, REJECTED);
      }
    }
  }

  /** An approval of a verified proposal, within its fifteen minutes, if every other check of the proof
      passed. The sealed proof stays even when it fails. */
  lemma {:induction false} ApproveForm(site: Site, s: Session, actor: Id, token: Id, missionId: Id, issuedAt: real,
    checkedAt: real)
    requires Inv(site, s)
    ensures var (t, result) := DoApprove(s, actor, token, missionId, issuedAt, checkedAt);
      if s.flow.current != VERIFIED then (t, result) == (s, Raised(WrongState))
      else
        var goal := Goal(s.intent.pallet, s.intent.source, s.intent.destination, multiset(s.intent.constraints));
        var content := ApprovalContent(token, s.proposal.value.hash, goal, actor, issuedAt, issuedAt + 900.0);
        var approval := Approval(content, content);
        var sealed := BindApproval(s.proof.value, s.proposal.value, approval, checkedAt);
        var mission := Plant.Mission(missionId, s.proposal.value.hash, goal, s.intent.pallet, s.intent.source,
          s.intent.destination, s.plan.value.agv, s.plan.value.nodes, s.plan.value.version, APPROVED, 1, 0);
        (t, result) ==
          if sealed.passed
          then (Through(s.(proof := Some(sealed), approval := Some(approval), mission := Some(mission)), [APPROVED], 0),
            Done)
          else (s.(proof := Some(sealed)), Raised(ApprovalFailed))
  {
    hide Inv, BindApproval, Through;
    if s.flow.current == VERIFIED {
      PapersWhenVerified(site, s);
      var approval := IssueApproval(token, s.proposal.value.hash, GoalOf(s.intent), actor, issuedAt);
      var sealed := BindApproval(s.proof.value, s.proposal.value, approval, checkedAt);
      var u := s.(proof := Some(sealed), approval := Some(approval));
      EnterOne(u.(mission := Some(NewMission(u, missionId))), APPROVED);
    }
  }

  lemma PapersWhenVerified(site: Site, s: Session)
    requires Inv(site, s) && s.flow.current == VERIFIED
    ensures s.plan.Some? && s.proposal.Some? && s.proof.Some?
  {
    hide SafeRoute, Plans;
    VerifiedFacts(site, s);
  }

  /** A rejection, of a verified proposal alone, and an override, of a stopped or verified one, which takes
      the approval away. */
  lemma {:induction false} RefusalForms(s: Session)
    ensures DoReject(s) ==
      if s.flow.current == VERIFIED then (Through(s, [REJECTED], 0), Done) else (s, Raised(WrongState))
    ensures DoOverride(s) ==
      if s.flow.current == VERIFIED || s.flow.current == SAFE_STOP
      then (Through(s.(approval := None), [FAILED_SAFE], 0), Done) else (s, Raised(WrongState))
  {
    EnterOne(s, REJECTED);
    EnterOne(s.(approval := None), FAILED_SAFE);
  }

  // ---- Execution ----

  /** The adapter's mission and its AGV's place, as the trace shows them after an advance. */
  function Reported(m: Mission, node: Id): Span { Telemetry(m.status, node) }

  /** A start of an approved mission. An approval that does not hold fails the session for good. The mission
      dispatched before is answered as it stands, without a motion; a new one makes its first advance, if
      it is the one that was named. */
  lemma {:induction false} StartForm(site: Site, s: Session, id: Id, now: real)
    requires Inv(site, s)
    ensures var (t, result) := DoStart(site, s, id, now);
      if s.flow.current != APPROVED || s.mission.None? || s.approval.None? then (t, result) == (s, Raised(WrongState))
      else if !ValidFor(s.approval.value, s.proposal.value, now) then
        (t, result) == (Through(s, [FAILED_SAFE], 1), Raised(ApprovalFailed))
      else if HasExecuted(s) then
        (t, result) == (Through(s.(mission := Some(TheMission(s))), [EXECUTING], 0), Raised(AdapterFailed))
      else
        && Plant.Start(site, s.plant, s.mission.value).Some?
        && var (plant, m) := Plant.Start(site, s.plant, s.mission.value).value;
          if id != s.mission.value.id then
            (t, result) == (Through(s.(plant := plant, mission := Some(m)), [EXECUTING], 0), Raised(AdapterFailed))
          else
            && Plant.Advance(site, plant, id).Some?
            && var (plant', m') := Plant.Advance(site, plant, id).value;
              var node := s.plan.value.nodes[1];
              var started := Through(s.(plant := plant', mission := Some(m')), [EXECUTING], 0);
              && result == Done
              && t == started.(
                   trace := started.trace + [Reported(m', node)],
                   moves := s.moves + [
                     Move(node, Authority(s.plan.value, s.snapshot.value, s.approval.value, now))])
  {
    hide Inv, Through, Plant.Start, Plant.Advance, Plant.StartLeft, Plant.AdvanceLeft, ValidFor;
    if s.flow.current == APPROVED {
      ApprovedFacts(site, s);
      if s.mission.Some? && s.approval.Some? && ValidFor(s.approval.value, s.proposal.value, now) {
        if HasExecuted(s) {
          SecondStartKeeps(site, s, id, now);
          HeldOnceExecuted(site, s);
          EnterOne(s.(mission := Some(TheMission(s))), EXECUTING);
        } else {
          FirstStartForm(site, s, id, now);
        }
      } else {
        EnterOne(s, FAILED_SAFE);
      }
    }
  }

  lemma HeldOnceExecuted(site: Site, s: Session)
    requires Inv(site, s) && HasExecuted(s)
    ensures Dispatched(s)
  {
  }

  lemma FirstStartForm(site: Site, s: Session, id: Id, now: real)
    requires Inv(site, s) && s.flow.current == APPROVED && s.mission.Some? && s.approval.Some? && !HasExecuted(s)
    requires s.plan.Some? && s.snapshot.Some? && s.proposal.Some? && ValidFor(s.approval.value, s.proposal.value, now)
    ensures Plant.Start(site, s.plant, s.mission.value).Some?
    ensures var (t, result) := DoStart(site, s, id, now);
      var (plant, m) := Plant.Start(site, s.plant, s.mission.value).value;
      if id != s.mission.value.id then
        (t, result) == (Through(s.(plant := plant, mission := Some(m)), [EXECUTING], 0), Raised(AdapterFailed))
      else
        && Plant.Advance(site, plant, id).Some?
        && var (plant', m') := Plant.Advance(site, plant, id).value;
          var node := s.plan.value.nodes[1];
          var started := Through(s.(plant := plant', mission := Some(m')), [EXECUTING], 0);
          && result == Done
          && t == started.(
               trace := started.trace + [Reported(m', node)],
               moves := s.moves + [Move(node, Authority(s.plan.value, s.snapshot.value, s.approval.value, now))])
  {
    hide Inv, Through, Plant.Start, Plant.Advance, Plant.StartLeft, ValidFor, HasExecuted, Dispatched;
    FirstDispatch(site, s);
    FirstStart(site, s, id, now);
    var (plant, m) := Plant.Start(site, s.plant, s.mission.value).value;
    var s1 := s.(plant := plant, mission := Some(m)).Enter(EXECUTING);
    EnterOne(s.(plant := plant, mission := Some(m)), EXECUTING);
    if id == s.mission.value.id {
      var (plant', m') := Plant.Advance(site, plant, id).value;
      EnterOne(s.(plant := plant', mission := Some(m')), EXECUTING);
      var t := DoStart(site, s, id, now).0;
      assert t == Moved(s1, plant', m', FirstAuthority(s, now));
      assert t.moves[|s.moves|] == Move(Sessions.Position(plant', m'), FirstAuthority(s, now));
      assert t.trace == s.trace + [Transitioned(EXECUTING)] + [Reported(m', s.plan.value.nodes[1])];
    } else {
      MisnamedAdvance(site, s, id);
    }
  }

  /** The adapter does not know the mission of another name, and changes nothing for it. */
  lemma MisnamedAdvance(site: Site, s: Session, id: Id)
    requires Inv(site, s) && s.flow.current == APPROVED && s.mission.Some? && !HasExecuted(s)
    requires id != s.mission.value.id && Plant.Start(site, s.plant, s.mission.value).Some?
    ensures var (plant, m) := Plant.Start(site, s.plant, s.mission.value).value;
      Plant.Advance(site, plant, id) == None && Plant.AdvanceLeft(site, plant, id) == plant
  {
    hide StageOk, HistoryOk, TraceOk, CargoOk, MovesOk, ReplanOk;
  }

  /** A stop of an executing mission. The blockage is on record, and the workflow blocked, before the adapter
      is asked to stop the mission that the call names, which it does for its own mission and a trigger. */
  lemma {:induction false} StopForm(site: Site, s: Session, id: Id, trigger: string, now: real)
    requires Inv(site, s)
    ensures var (t, result) := DoStop(site, s, id, trigger, now);
      var b := site.blockage;
      var recordable := b.node in site.nodes && 0.0 <= b.confidence && b.confidence <= 1.0 && b.ttl > 0.0;
      var w := s.plant.world;
      var noted := w.(obstacles := w.obstacles[b.obstacle := Obstacle(b.node, b.confidence, now, b.ttl, 1)]);
      if s.flow.current != EXECUTING then (t, result) == (s, Raised(WrongState))
      else if !recordable then (t, result) == (s, Raised(BadBlockage))
      else if trigger == "" || id != TheMission(s).id then
        (t, result) == (Through(s.(plant := s.plant.(world := noted)), [BLOCKED], 0), Raised(AdapterFailed))
      else
        && TheMission(s).agv in w.agvs
        && var m := TheMission(s).(status := SAFE_STOP);
          var stopped := Plant.Plant(
            noted.(agvs := w.agvs[m.agv := w.agvs[m.agv].(status := AgvStopped)]),
            s.plant.adapter.(missions := map[id := m]));
          (t, result) == (Through(s.(plant := stopped, mission := Some(m)), [BLOCKED, SAFE_STOP], 0), Done)
  {
    hide Inv, Through, SafeRoute;
    if s.flow.current == EXECUTING {
      OneMissionHeld(site, s);
      var w := Plant.Blocked(site, s.plant.world, now);
      EnterOne(s.(plant := s.plant.(world := w)), BLOCKED);
      if id == TheMission(s).id {
        var m := TheMission(s).(status := SAFE_STOP);
        var stopped := Plant.Plant(
          w.(agvs := w.agvs[m.agv := w.agvs[m.agv].(status := AgvStopped)]),
          s.plant.adapter.(missions := map[id := m]));
        assert s.plant.adapter.missions[id := m] == map[id := m];
        EnterTwo(s.(plant := stopped, mission := Some(m)), BLOCKED, SAFE_STOP);
      }
    }
  }

  /** While executing, the adapter holds this one mission, whose AGV exists and of which the session has a
      copy. */
  lemma OneMissionHeld(site: Site, s: Session)
    requires Inv(site, s) && s.flow.current == EXECUTING
    ensures Dispatched(s) && s.plant.adapter.missions == map[TheMission(s).id := TheMission(s)]
    ensures TheMission(s).agv in s.plant.world.agvs && s.mission.Some? && s.mission.value.id == TheMission(s).id
  {
    hide SafeRoute, Plans, CargoOk, MovesOk, ReplanOk, TraceOk, FlowOk, ApprovedFirst;
    PreparedFacts(site, s);
  }

  /** A replan of a stopped mission. It counts a snapshot; a recovery that does not replan for the approved
      goal fails the session for good; and so does a new route whose proof, sealed with the first
      approval, does not pass. */
  lemma {:induction false} ReplanForm(site: Site, s: Session, now: real, recovery: Option<Recovery>, planned: Outcome,
    checkedAt: real)
    requires Inv(site, s)
    ensures var (t, result) := DoReplan(site, s, now, recovery, planned, checkedAt);
      var taken := Plant.Capture(site, Plant.Counted(s.plant.world), now);
      var goal := Goal(s.intent.pallet, s.intent.source, s.intent.destination, multiset(s.intent.constraints));
      if s.flow.current != SAFE_STOP || s.mission.None? || s.approval.None? then (t, result) == (s, Raised(WrongState))
      else if recovery.None? then (t, result) == (Snapped(s), Raised(ProviderFailed))
      else if !recovery.value.replans || recovery.value.goal != goal then
        (t, result) == (Through(Snapped(s), [FAILED_SAFE], 1), Raised(GoalNotPreserved))
      else if !planned.Planned? then (t, result) == (Through(Snapped(s), [REPLANNING], 0), Raised(NoPlan))
      else
        var route := planned.plan;
        var transient := Proposal(s.proposal.value.id, s.intent, route.agv, route.nodes, route.version,
          route.mapVersion, taken.id, 0);
        var sealed := BindApproval(RouteProof(s.intent, route, taken, transient), s.proposal.value, s.approval.value,
          checkedAt);
        var filed := Snapped(s).(replan := Some(Replanned(route, sealed, taken)));
        (t, result) ==
          if sealed.passed then (Through(filed, [REPLANNING, VERIFIED], 0), Done)
          else (Through(filed, [REPLANNING, FAILED_SAFE], 1), Raised(ProofFailed))
  {
    hide Inv, Through, RouteProof, BindApproval, Plant.Capture;
    if s.flow.current == SAFE_STOP {
      StoppedOnMap(site, s);
      EnterOne(Snapped(s), FAILED_SAFE);
      EnterOne(Snapped(s), REPLANNING);
      if MayReplan(s) && planned.Planned? {
        var taken := Plant.Capture(site, Plant.Counted(s.plant.world), now);
        var sealed := BindApproval(
          RouteProof(s.intent, planned.plan, taken,
            IssueProposal(s.proposal.value.id, s.intent, planned.plan, taken.id, 0)),
          s.proposal.value, s.approval.value, checkedAt);
        var filed := Snapped(s).(replan := Some(Replanned(planned.plan, sealed, taken)));
        EnterTwo(filed, REPLANNING, VERIFIED);
        EnterTwo(filed, REPLANNING, FAILED_SAFE);
      }
    }
  }

  lemma StoppedOnMap(site: Site, s: Session)
    requires Inv(site, s) && s.flow.current == SAFE_STOP
    ensures s.proposal.Some? && Plant.OnMap(site, s.plant.world)
  {
    hide SafeRoute, Plans, CargoOk, MovesOk, ReplanOk, TraceOk;
  }

  // ---- Resumption ----

  /** The reports of the advances to these nodes, the last of which completes the mission. */
  function Reports(nodes: seq<Id>): (spans: seq<Span>)
    ensures |spans| == |nodes|
  {
    seq(|nodes|, i requires 0 <= i < |nodes| => Telemetry(if i == |nodes| - 1 then COMPLETED else EXECUTING, nodes[i]))
  }

  lemma ReportsStep(nodes: seq<Id>, n: nat)
    requires n < |nodes|
    ensures Reports(nodes[n..])
         == [Telemetry(if n == |nodes| - 1 then COMPLETED else EXECUTING, nodes[n])] + Reports(nodes[n + 1..])
  {
  }

  /** What the adapter needs to carry a mission on is there. */
  lemma OnTheWayIsReady(site: Site, s: Session, id: Id, auth: Authority)
    requires OnTheWay(site, s, id, auth)
    ensures id in s.plant.adapter.missions && s.plant.adapter.missions[id] == TheMission(s)
    ensures Plant.Ready(site, s.plant.world, TheMission(s)) && TheMission(s).route == auth.plan.nodes
  {
    hide SafeRoute, Plans, FlowOk, ApprovedFirst, MovesOk, TraceOk;
    PreparedFacts(site, s);
    RouteOnMap(site, s, auth);
    ReadyToGo(site, s, TheMission(s));
  }

  lemma RouteOnMap(site: Site, s: Session, auth: Authority)
    requires Covers(s, auth) && auth.snapshot.nodes == site.nodes
    ensures forall n :: n in auth.plan.nodes ==> n in site.nodes
  {
  }

  lemma {:induction false} DriveForm(site: Site, s: Session, id: Id, auth: Authority)
    requires OnTheWay(site, s, id, auth)
    ensures id in s.plant.adapter.missions && Plant.Ready(site, s.plant.world, TheMission(s))
    ensures s.plant.adapter.missions[id] == TheMission(s) && TheMission(s).route == auth.plan.nodes
    ensures var (t, result) := Drive(site, s, id, auth);
      var rest := auth.plan.nodes[TheMission(s).index + 1..];
      && result == Done && t.plant == Plant.AtEnd(site, s.plant, id) && t.trace == s.trace + Reports(rest)
      && t == s.(plant := t.plant, trace := t.trace, mission := Some(t.plant.adapter.missions[id]),
           moves := s.moves + Along(rest, auth))
    decreases |auth.plan.nodes| - TheMission(s).index
  {
    hide Core, SafeRoute, Plant.Advance, Plant.AdvanceLeft, Plant.Ready, Plant.AtEnd, Covers, Plant.Arrived, Drive,
      Reports, StatusOk;
    OnTheWayIsReady(site, s, id, auth);
    Plant.AdvanceTowardsEnd(site, s.plant, id);
    MovedOnTheWay(site, s, id, auth);
    var (plant, m) := Plant.Advance(site, s.plant, id).value;
    var u := Moved(s, plant, m, auth);
    var n := TheMission(s).index + 1;
    ReportsStep(auth.plan.nodes, n);
    AlongStep(auth.plan.nodes, n, auth);
    DriveTurn(site, s, id, auth);
    if m.status == EXECUTING {
      DriveForm(site, u, id, auth);
      assert u.trace + Reports(auth.plan.nodes[n + 1..]) == s.trace + Reports(auth.plan.nodes[n..]);
      assert u.moves + Along(auth.plan.nodes[n + 1..], auth) == s.moves + Along(auth.plan.nodes[n..], auth);
    } else {
      DriveTurn(site, u, id, auth);
      assert auth.plan.nodes[n + 1..] == [];
      assert Reports([]) == [] && Along([], auth) == [];
    }
  }

  lemma MovedOnTheWay(site: Site, s: Session, id: Id, auth: Authority)
    requires OnTheWay(site, s, id, auth)
    ensures Plant.Advance(site, s.plant, id).Some?
    ensures var (plant, m) := Plant.Advance(site, s.plant, id).value;
      var u, n := Moved(s, plant, m, auth), TheMission(s).index + 1;
      && m.index == n && m.status == (if n == |auth.plan.nodes| - 1 then COMPLETED else EXECUTING)
      && Sessions.Position(plant, m) == auth.plan.nodes[n]
      && (m.status == EXECUTING ==> OnTheWay(site, u, id, auth) && TheMission(u) == m)
  {
    hide Core, SafeRoute, Plant.SameEntities, Plant.Arrived;
    MovedKeeps(site, s, id, auth);
    var (plant, m) := Plant.Advance(site, s.plant, id).value;
    var u := Moved(s, plant, m, auth);
    assert u.moves[|s.moves|] == Move(auth.plan.nodes[m.index], auth);
  }

  /** A resume of a verified mission with a replan whose proof passed, under the approval, which still has to
      be valid. It raises for any mission but the adapter's, changing nothing; that one is driven along
      the new route, from its second node to its end, each advance reported, and completed. */
  lemma {:induction false} ResumeForm(site: Site, s: Session, id: Id, now: real)
    requires Inv(site, s)
    ensures var (t, result) := DoResume(site, s, id, now);
      if s.flow.current != VERIFIED || s.mission.None? || s.replan.None? || !s.replan.value.proof.passed
         || s.approval.None? || !ValidFor(s.approval.value, s.proposal.value, now) then
        (t, result) == (s, Raised(WrongState))
      else
        && Dispatched(s) && TheMission(s).agv in s.plant.world.agvs
        && TheMission(s).destination in s.plant.world.locations
        && if id != TheMission(s).id then (t, result) == (s, Raised(AdapterFailed))
           else
             var r, old' := s.replan.value, TheMission(s);
             var m := old'.(route := r.plan.nodes, routeVersion := r.plan.version, index := |r.plan.nodes| - 1,
               status := COMPLETED);
             var w, end := s.plant.world, r.plan.nodes[|r.plan.nodes| - 1];
             var done := w.(
               agvs := w.agvs[m.agv := w.agvs[m.agv].(
                 node := end, pose := Plant.PoseAt(site, end), status := AgvIdle, mission := None)],
               locations := w.locations[m.destination := w.locations[m.destination].(
                 occupancy := Some(m.pallet), pallet := Some(m.pallet))],
               pallets := w.pallets[m.pallet := m.destination]);
             && result == Done
             && t == s.(
                  plant := Plant.Plant(done, s.plant.adapter.(missions := map[id := m])), mission := Some(m),
                  flow := Flow(COMPLETED, s.flow.history + [EXECUTING, COMPLETED]),
                  trace := s.trace + [Transitioned(EXECUTING)] + Reports(r.plan.nodes[1..]) + [Transitioned(COMPLETED)],
                  moves := s.moves + Along(r.plan.nodes[1..], ResumeAuthority(s, now)))
  {
    hide Inv, SafeRoute, Plans, Plant.Ready, Plant.Arrived, Drive, ValidFor;
    if s.flow.current == VERIFIED {
      PapersWhenVerified(site, s);
      if MayResume(s, now) {
        MayRerouteExactly(site, s, id, now);
        HeldEntities(site, s);
        if id == TheMission(s).id {
          ResumedForm(site, s, id, now);
        } else {
          FailedRerouteLeavesNothing(site, s, id, now);
        }
      }
    }
  }

  lemma HeldEntities(site: Site, s: Session)
    requires Inv(site, s) && HasExecuted(s)
    ensures Dispatched(s) && s.plant.adapter.missions == map[TheMission(s).id := TheMission(s)]
    ensures TheMission(s).agv in s.plant.world.agvs && TheMission(s).destination in s.plant.world.locations
  {
    hide SafeRoute, Plans, CargoOk, MovesOk, ReplanOk, TraceOk, FlowOk, ApprovedFirst;
    PreparedFacts(site, s);
  }

  lemma ResumedForm(site: Site, s: Session, id: Id, now: real)
    requires Inv(site, s) && MayResume(s, now) && HasExecuted(s) && Dispatched(s) && id == TheMission(s).id
    requires Plant.ReplaceRoute(s.plant, id, s.replan.value.plan).Some?
    requires TheMission(s).agv in s.plant.world.agvs && TheMission(s).destination in s.plant.world.locations
    requires s.plant.adapter.missions == map[TheMission(s).id := TheMission(s)]
    ensures var (t, result) := DoResume(site, s, id, now);
      var r, w, nodes := s.replan.value, s.plant.world, s.replan.value.plan.nodes;
      var m := TheMission(s).(route := nodes, routeVersion := r.plan.version, index := |nodes| - 1,
        status := COMPLETED);
      var end := nodes[|nodes| - 1];
      && result == Done
      && t == s.(
           plant := Plant.Plant(
             w.(agvs := w.agvs[m.agv := w.agvs[m.agv].(
                  node := end, pose := Plant.PoseAt(site, end), status := AgvIdle, mission := None)],
                locations := w.locations[m.destination := w.locations[m.destination].(
                  occupancy := Some(m.pallet), pallet := Some(m.pallet))],
                pallets := w.pallets[m.pallet := m.destination]),
             s.plant.adapter.(missions := map[id := m])), mission := Some(m),
           flow := Flow(COMPLETED, s.flow.history + [EXECUTING, COMPLETED]),
           trace := s.trace + [Transitioned(EXECUTING)] + Reports(nodes[1..]) + [Transitioned(COMPLETED)],
           moves := s.moves + Along(nodes[1..], ResumeAuthority(s, now)))
  {
    hide Inv, Core, SafeRoute, Plans, Plant.Ready, Plant.Arrived, Drive, ValidFor, StatusOk, SameJob, Reports, Along,
      Covers;
    RerouteKeeps(site, s, id, now);
    var (plant, m) := Plant.ReplaceRoute(s.plant, id, s.replan.value.plan).value;
    var s1 := s.(plant := plant, mission := Some(m)).Enter(EXECUTING);
    var auth := ResumeAuthority(s, now);
    ResumeCovers(site, s, s1, now);
    DriveForm(site, s1, id, auth);
    var t := Drive(site, s1, id, auth).0;
    var end := auth.plan.nodes[|auth.plan.nodes| - 1];
    assert m.agv == TheMission(s).agv && m == TheMission(s).(route := m.route, routeVersion := m.routeVersion,
      index := 0, status := EXECUTING);
    assert s1.flow.history + [COMPLETED] == s.flow.history + [EXECUTING, COMPLETED];
    assert t.plant.adapter.missions == map[id := m.(index := |m.route| - 1, status := COMPLETED)];
    var agv := s.plant.world.agvs[m.agv].(
      node := end, pose := Plant.PoseAt(site, end), status := AgvIdle, mission := None);
    assert plant.world.agvs[m.agv := agv] == s.plant.world.agvs[m.agv := agv];
  }
}
