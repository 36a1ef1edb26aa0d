/** The service's promises, over every run. `v` is any sound state, in particular any state that a run
    from the empty service reaches, and `calls` is any legal continuation, including calls that raise. */
module ServiceTheorems {
  import opened Domain
  import opened Workflow
  import opened Planning
  import opened Safety
  import opened Sessions
  import opened SessionInvariant
  import opened SessionSteps
  import opened SessionEffects
  import opened SessionOutcomes
  import opened SessionMotion
  import opened SessionRaises
  import opened SessionLives
  import opened Service
  import opened ServiceRuns
  import opened ServiceLives
  import Plant

  // ---- Motion ----

  /** In every run, every node an AGV was ever moved to lies on a route that the planner made from a
      snapshot of the site. It is the filed plan's route, with the proof issued for the filed proposal, or
      the filed replan's, with its filed proof; that proof passed, so the route passed all nine route
      checks; and the move was authorised at a check when an approval of the session's own proposal, hash
      and goal, was valid. */
  lemma {:induction false} EveryMotionIsAuthorised(sc: Scenario, calls: seq<Call>, v: ServiceState, sid: Id, i: nat)
    requires Reached(sc, calls, v) && sid in v.sessions && i < |v.sessions[sid].moves|
    ensures var s := v.sessions[sid];
      var Move(node, auth) := s.moves[i];
      && s.proposal.Some? && s.plan.Some? && s.proposal.value.goal == s.intent
      && node in auth.plan.nodes && auth.plan.agv == s.plan.value.agv
      && Sourced(sc.site, s, auth) && SafeRoute(s.intent, auth.plan, auth.snapshot)
      && ((Original(s, auth) && RouteProof(s.intent, auth.plan, auth.snapshot, s.proposal.value).passed) ||
           Renewed(s, auth))
      && ValidFor(auth.approval, s.proposal.value, auth.at)
  {
    hide SafeRoute, RouteProof, MotionOk, Original, Renewed, Sourced;
    ReachedOk(sc, calls, v);
    assert SessionOk(sc.site, v.sessions[sid]);
    assert Authorised(v.sessions[sid], v.sessions[sid].moves[i]);
    MotionsAreSourced(sc.site, v.sessions[sid], i);
  }

  /** In every run, every motion was ordered: before it, a call by an approver committed and issued the
      approval it was made under, in that caller's name; and a later call by an executor, a start or a
      resume that committed, made it. */
  lemma {:induction false} EveryMotionWasOrdered(sc: Scenario, calls: seq<Call>, v: ServiceState, sid: Id, i: nat)
    returns (j: nat, k: nat)
    requires Reached(sc, calls, v) && sid in v.sessions && i < |v.sessions[sid].moves|
    ensures j < k < |calls|
    ensures Granted(sc, calls, sid, v.sessions[sid].moves[i].auth.approval, j) && Ordered(sc, calls, sid, i, k)
  {
    hide Granted, Ordered;
    RunLicensed(sc, calls, v, sid);
    var a := v.sessions[sid].moves[i].auth.approval;
    assert MotionLicensed(sc, calls, sid, i, a);
    j, k :| Granted(sc, calls, sid, a, j) && Ordered(sc, calls, sid, i, k) && j < k;
    OrderedIsACall(sc, calls, sid, i, k);
  }

  lemma OrderedIsACall(sc: Scenario, calls: seq<Call>, sid: Id, i: nat, k: nat)
    requires Ordered(sc, calls, sid, i, k)
    ensures k < |calls|
  {
  }

  /** In every run each motion but the first goes over an edge of the map from where the one before it
      ended. The first leads to the second node of the filed plan, from wherever the AGV was when the
      session was created: it goes over an edge, and the whole trail then does, exactly when one joins
      these two nodes, as from the origin of the plan. A completed trail goes on along the replan. */
  lemma {:induction false} MotionIsContinuous(sc: Scenario, calls: seq<Call>, v: ServiceState, sid: Id)
    requires Reached(sc, calls, v) && sid in v.sessions && v.sessions[sid].moves != []
    ensures var s := v.sessions[sid];
      && s.plan.Some? && s.plan.value.agv in sc.world.agvs
      && var plan, trail := s.plan.value, Trail(sc.world, s);
        && trail[1] == plan.nodes[1]
        && (forall i :: 0 < i < |trail| - 1 ==> Linked(sc.site.edges, trail, i))
        && (Linked(sc.site.edges, trail, 0) <==> Joined(sc.site.edges, trail[0], plan.nodes[1]))
        && (trail[0] == plan.nodes[0] ==> Linked(sc.site.edges, trail, 0))
        && plan.agv in s.plant.world.agvs && s.plant.world.agvs[plan.agv].node == trail[|trail| - 1]
        && (s.flow.current == COMPLETED ==> s.replan.Some? && trail[1..] == s.replan.value.plan.nodes)
  {
    hide Inv, CompletedOk, MotionOk, Standing, TraceExact, Lived;
    ReachedOk(sc, calls, v);
    RunLives(sc, calls, v);
    assert SessionOk(sc.site, v.sessions[sid]);
    TrailFollowsEdges(sc.site, sc.world, v.sessions[sid]);
  }

  /** In every run the motions of a session are none, or the one advance to the second node of its filed
      plan; and once it is completed, those followed by the whole of its filed replan, node by node, on
      one authority. */
  lemma {:induction false} MotionsAreTheFiledRoutes(sc: Scenario, calls: seq<Call>, v: ServiceState, sid: Id)
    requires Reached(sc, calls, v) && sid in v.sessions
    ensures MotionOk(v.sessions[sid])
  {
    hide MotionOk, Inv;
    ReachedOk(sc, calls, v);
    assert SessionOk(sc.site, v.sessions[sid]);
  }

  /** An AGV that stands elsewhere than before is the session's selected one, and it stands where the
      last of the moves logged since then put it. */
  lemma {:induction false} AgvsMoveOnlyAsLogged(sc: Scenario, v: ServiceState, calls: seq<Call>, sid: Id, agv: Id)
    requires ScenarioOk(sc) && ServiceOk(sc.site, v) && Legal(sc, v, calls)
    requires sid in v.sessions && agv in v.sessions[sid].plant.world.agvs
    ensures sid in After(sc, v, calls).sessions
    ensures var s, t := v.sessions[sid], After(sc, v, calls).sessions[sid];
      && agv in t.plant.world.agvs && s.moves <= t.moves
      && (t.plant.world.agvs[agv].node != s.plant.world.agvs[agv].node ==>
            && t.plan.Some? && agv == t.plan.value.agv && |t.moves| > |s.moves|
            && t.plant.world.agvs[agv].node == t.moves[|t.moves| - 1].node)
  {
    hide ServiceOk, Legal, After, KeepsMission;
    RunKeeps(sc, v, calls);
  }

  // ---- The protocol ----

  /** In every run a session's history starts at INTENT and follows the table; its first execution comes
      right after an approval; and any two successive executions are separated by a block, a safe stop,
      a replan and a new verification, in that order. */
  lemma {:induction false} HistoriesFollowTheProtocol(sc: Scenario, calls: seq<Call>, v: ServiceState, sid: Id)
    requires Reached(sc, calls, v) && sid in v.sessions
    ensures var h := v.sessions[sid].flow.history;
      FollowsTable(h) && h[|h| - 1] == v.sessions[sid].flow.current && ApprovedFirst(h) && ExecutionsSeparated(h)
  {
    hide ApprovedFirst, ExecutionsSeparated;
    ReachedOk(sc, calls, v);
    assert SessionOk(sc.site, v.sessions[sid]);
    TableSeparatesExecutions(v.sessions[sid].flow.history);
  }

  /** In every run the trace records every transition in order exactly when the session is in neither
      FAILED_SAFE nor REJECTED, or is there by a committed rejection or override. Otherwise an operation
      aborted, and the transition into its last state is the one missing. */
  lemma {:induction false} TraceTellsHistory(sc: Scenario, calls: seq<Call>, v: ServiceState, sid: Id)
    requires Reached(sc, calls, v) && sid in v.sessions
    ensures var s := v.sessions[sid];
      var h := s.flow.history;
      && h != []
      && (Recorded(s.trace) == h[1..] <==>
            s.flow.current !in {FAILED_SAFE, REJECTED} || REJECT in Commits(s.trace) || OVERRIDE in Commits(s.trace))
      && (Recorded(s.trace) == h[1..] || (|h| > 1 && Recorded(s.trace) == h[1..|h| - 1]))
  {
    hide Recorded, Commits, StageOk, CargoOk, AdapterOk, CopyOk, MovesOk, HistoryOk, ReplanOk, CompletedOk, MotionOk;
    ReachedOk(sc, calls, v);
    assert SessionOk(sc.site, v.sessions[sid]);
  }

  // ---- Failing closed ----

  /** Nothing but notes of accepted requests was added. */
  ghost predicate Frozen(s: Session, t: Session) {
    t == s.(trace := t.trace) && s.trace <= t.trace && Commits(t.trace) == Commits(s.trace)
  }

  lemma {:induction false} ApplyFrozen(sc: Scenario, v: ServiceState, c: Call, sid: Id)
    requires ServiceOk(sc.site, v) && Admissible(sc, v, c) && sid in v.sessions
    requires v.sessions[sid].flow.current in FINAL_STATES
    ensures sid in Apply(sc, v, c).0.sessions && Frozen(v.sessions[sid], Apply(sc, v, c).0.sessions[sid])
  {
    hide SessionOk, Perform, Possible, Counted, Referring, Frozen, Commits;
    FrozenReflexive(v.sessions[sid]);
    if c.Ask? && Admitted(v, c.request, sid) {
      AttemptFrozen(sc.site, v.sessions[sid], c.request.target, c.request.op);
    }
  }

  lemma FrozenReflexive(s: Session)
    ensures Frozen(s, s)
  {
  }

  lemma AttemptFrozen(site: Site, s: Session, id: Id, op: Operation)
    requires s.flow.current in FINAL_STATES
    ensures Attempt(site, s, id, op).1.Raised? && Frozen(s, Attempt(site, s, id, op).0)
  {
    hide Perform, Recorded;
    var s1 := s.Log(Accepted(op.Name()));
    FinalStatesAreFrozen(site, s1, id, op);
    TraceGrows(s.trace, Accepted(op.Name()));
  }

  lemma FrozenTransitive(s: Session, t: Session, u: Session)
    requires Frozen(s, t) && Frozen(t, u)
    ensures Frozen(s, u)
  {
  }

  /** A session in a final state is never changed again, in any continuation. */
  lemma {:induction false} FinalIsForever(sc: Scenario, v: ServiceState, calls: seq<Call>, sid: Id)
    requires ScenarioOk(sc) && ServiceOk(sc.site, v) && Legal(sc, v, calls)
    requires sid in v.sessions && v.sessions[sid].flow.current in FINAL_STATES
    ensures sid in After(sc, v, calls).sessions && Frozen(v.sessions[sid], After(sc, v, calls).sessions[sid])
  {
    hide ServiceOk, Apply, Admissible, Commits;
    if calls != [] {
      var before := calls[..|calls| - 1];
      FinalIsForever(sc, v, before, sid);
      RunKeeps(sc, v, before);
      ApplyFrozen(sc, After(sc, v, before), calls[|calls| - 1], sid);
      FrozenTransitive(v.sessions[sid], After(sc, v, before).sessions[sid], After(sc, v, calls).sessions[sid]);
    }
  }

  /** The service fails closed: when an operation raises after a transition, its session is never changed
      again, in any continuation. The one exception is a start that leaves EXECUTING. */
  lemma {:induction false} AbortsAreForever(sc: Scenario, v: ServiceState, r: Request, calls: seq<Call>)
    requires ScenarioOk(sc) && ServiceOk(sc.site, v) && Admissible(sc, v, Ask(r))
    requires var (w, reply) := Handle(sc.site, v, r);
      && reply.Failed? && Legal(sc, w, calls)
      && reply.session in v.sessions && reply.session in w.sessions
      && w.sessions[reply.session].flow != v.sessions[reply.session].flow
    ensures var (w, reply) := Handle(sc.site, v, r);
      var s := w.sessions[reply.session];
      || (r.op.Start? && s.flow.current == EXECUTING)
      || (reply.session in After(sc, w, calls).sessions && Frozen(s, After(sc, w, calls).sessions[reply.session]))
  {
    hide SessionOk, Evolves, Perform, Possible, Counted, Referring, Legal, After, Extends, Frozen;
    HandleKeeps(sc, v, r);
    var (w, reply) := Handle(sc.site, v, r);
    var sid := reply.session;
    assert SessionOk(sc.site, v.sessions[sid]);
    FailureLeadsNowhere(sc.site, v.sessions[sid], r.target, r.op);
    if w.sessions[sid].flow.current in FINAL_STATES {
      FinalIsForever(sc, w, calls, sid);
    }
  }

  lemma FailureLeadsNowhere(site: Site, s: Session, id: Id, op: Operation)
    requires SessionOk(site, s) && Possible(site, s, op) && Attempt(site, s, id, op).1.Raised?
    requires Attempt(site, s, id, op).0.flow != s.flow
    ensures var t := Attempt(site, s, id, op).0;
      t.flow.current in FINAL_STATES || (op.Start? && t.flow.current == EXECUTING)
  {
    hide Inv, CompletedOk, MotionOk, TraceExact, Perform, Possible, Evolves;
    LogKeeps(site, s, Accepted(op.Name()));
    SamePossible(site, s, s.Log(Accepted(op.Name())), op);
    RaisesLeadNowhere(site, s.Log(Accepted(op.Name())), id, op);
  }

  /** A stop that names another mission than the adapter's, or no trigger, blocks the workflow for ever.
      After a renewed approval the mission it filed is such another. */
  lemma {:induction false} MisnamedStopIsFinal(sc: Scenario, v: ServiceState, r: Request, sid: Id, calls: seq<Call>)
    requires ScenarioOk(sc) && ServiceOk(sc.site, v) && Admissible(sc, v, Ask(r)) && Admitted(v, r, sid)
    requires r.op.Stop? && v.sessions[sid].flow.current == EXECUTING && Plant.BlockageOk(sc.site)
    requires Dispatched(v.sessions[sid]) && (r.op.trigger == "" || r.target != TheMission(v.sessions[sid]).id)
    requires Legal(sc, Handle(sc.site, v, r).0, calls)
    ensures var (w, reply) := Handle(sc.site, v, r);
      && reply == Failed(sid, AdapterFailed) && sid in After(sc, w, calls).sessions
      && After(sc, w, calls).sessions[sid].flow == v.sessions[sid].flow.To(BLOCKED)
      && After(sc, w, calls).sessions[sid].moves == v.sessions[sid].moves
  {
    hide Attempt, Possible, SessionOk, Dispatched, Legal, After, Counted, Referring, Extends;
    var w := Handle(sc.site, v, r).0;
    HandleKeeps(sc, v, r);
    assert SessionOk(sc.site, v.sessions[sid]);
    MisnamedStopBlocks(sc.site, v.sessions[sid], r.target, r.op);
    FinalIsForever(sc, w, calls, sid);
  }

  lemma MisnamedStopBlocks(site: Site, s: Session, id: Id, op: Operation)
    requires SessionOk(site, s) && op.Stop? && s.flow.current == EXECUTING && Plant.BlockageOk(site)
    requires Dispatched(s) && (op.trigger == "" || id != TheMission(s).id)
    ensures var (t, result) := Attempt(site, s, id, op);
      result == Raised(AdapterFailed) && t.flow == s.flow.To(BLOCKED) && t.moves == s.moves
  {
    hide Inv, CompletedOk, MotionOk, TraceExact, Standing, SameJob, StatusOk;
  }

  // ---- One mission ----

  /** Once dispatched, a mission stays the only one its adapter ever holds, and keeps its identifier,
      pallet, endpoints, AGV and goal, through every replan and renewed approval. */
  lemma {:induction false} OneMissionForLife(sc: Scenario, v: ServiceState, calls: seq<Call>, sid: Id)
    requires ScenarioOk(sc) && ServiceOk(sc.site, v) && Legal(sc, v, calls)
    requires sid in v.sessions && v.sessions[sid].plant.adapter.missions != map[]
    ensures sid in After(sc, v, calls).sessions
    ensures var s, t := v.sessions[sid], After(sc, v, calls).sessions[sid];
      && Dispatched(s) && Dispatched(t)
      && var m, m' := TheMission(s), TheMission(t);
        && t.plant.adapter.missions == map[m.id := m'] && m'.id == m.id
        && m'.pallet == m.pallet && m'.source == m.source && m'.destination == m.destination
        && m'.agv == m.agv && m'.goal == m.goal
  {
    hide Legal, After;
    RunKeeps(sc, v, calls);
    assert SessionOk(sc.site, v.sessions[sid]);
    OneMission(sc.site, v.sessions[sid], After(sc, v, calls).sessions[sid]);
  }

  lemma OneMission(site: Site, s: Session, t: Session)
    requires Inv(site, s) && Evolves(s, t) && s.plant.adapter.missions != map[]
    ensures Dispatched(s) && Dispatched(t)
    ensures var m, m' := TheMission(s), TheMission(t);
        && t.plant.adapter.missions == map[m.id := m'] && m'.id == m.id
        && m'.pallet == m.pallet && m'.source == m.source && m'.destination == m.destination
        && m'.agv == m.agv && m'.goal == m.goal
  {
    hide SafeRoute, FlowOk, ApprovedFirst, MovesOk, CargoOk, ReplanOk, StageOk, MovesLogged;
  }

  // ---- Stillness ----

  /** No call of the run commits a resume of this session. */
  ghost predicate Quiet(sc: Scenario, v: ServiceState, calls: seq<Call>, sid: Id) {
    calls != [] ==>
      && Quiet(sc, v, calls[..|calls| - 1], sid)
      && Apply(sc, After(sc, v, calls[..|calls| - 1]), calls[|calls| - 1]).1 != Reply.Committed(sid, RESUME)
  }

  lemma LogStill(s: Session, t: Session)
    requires Halted(s) && Bookkeeping(s, t)
    ensures Halted(t) && Motionless(s, t)
  {
  }

  lemma MotionlessTransitive(s: Session, t: Session, u: Session)
    requires Motionless(s, t) && Motionless(t, u)
    ensures Motionless(s, u)
  {
  }

  lemma {:induction false} AttemptStill(site: Site, s: Session, id: Id, op: Operation)
    requires SessionOk(site, s) && Possible(site, s, op) && Halted(s)
    requires !(op.Resume? && Attempt(site, s, id, op).1 == Done)
    ensures Halted(Attempt(site, s, id, op).0) && Motionless(s, Attempt(site, s, id, op).0)
  {
    hide Evolves, Inv, CompletedOk, Perform, Possible, Halted, Motionless;
    var s1 := s.Log(Accepted(op.Name()));
    LogKeeps(site, s, Accepted(op.Name()));
    LogStill(s, s1);
    SamePossible(site, s, s1, op);
    Stillness(site, s1, id, op);
    PerformIsSound(site, s1, id, op);
    var (t, result) := Perform(site, s1, id, op);
    MotionlessTransitive(s, s1, t);
    if result.Done? {
      FinishKeeps(site, t, op.Name());
      LogStill(t, Finish(t, op.Name()));
      MotionlessTransitive(s, t, Finish(t, op.Name()));
    }
  }

  lemma {:induction false} ApplyStill(sc: Scenario, v: ServiceState, c: Call, sid: Id)
    requires ServiceOk(sc.site, v) && Admissible(sc, v, c) && sid in v.sessions && Halted(v.sessions[sid])
    requires Apply(sc, v, c).1 != Reply.Committed(sid, RESUME)
    ensures sid in Apply(sc, v, c).0.sessions
    ensures Halted(Apply(sc, v, c).0.sessions[sid]) && Motionless(v.sessions[sid], Apply(sc, v, c).0.sessions[sid])
  {
    hide SessionOk, Halted, Attempt, Possible, Counted, Referring;
    var s := v.sessions[sid];
    assert SessionOk(sc.site, s);
    if c.Ask? && Admitted(v, c.request, sid) {
      var r := c.request;
      if r.op.Resume? && Attempt(sc.site, s, r.target, r.op).1 == Done {
      } else {
        AttemptStill(sc.site, s, r.target, r.op);
      }
    }
  }

  /** From a completed stop until a resume commits, the mission stays stopped, no AGV changes place or
      pose, nothing is loaded or unloaded and no motion is logged, whatever else is called, a second
      approval and start included. */
  lemma {:induction false} StillnessOverRuns(sc: Scenario, v: ServiceState, calls: seq<Call>, sid: Id)
    requires ScenarioOk(sc) && ServiceOk(sc.site, v) && Legal(sc, v, calls) && Quiet(sc, v, calls, sid)
    requires sid in v.sessions && Halted(v.sessions[sid])
    ensures sid in After(sc, v, calls).sessions
    ensures Halted(After(sc, v, calls).sessions[sid]) && Motionless(v.sessions[sid], After(sc, v, calls).sessions[sid])
  {
    hide ServiceOk, Apply, Admissible, Halted;
    if calls != [] {
      var before := calls[..|calls| - 1];
      StillnessOverRuns(sc, v, before, sid);
      RunKeeps(sc, v, before);
      ApplyStill(sc, After(sc, v, before), calls[|calls| - 1], sid);
      MotionlessTransitive(v.sessions[sid], After(sc, v, before).sessions[sid], After(sc, v, calls).sessions[sid]);
    }
  }

  // ---- Completion ----

  /** In every run a completed session has delivered. Its AGV set out on the replanned route from where
      the first advance had put it, the second node of the first plan, and made no other motion. */
  lemma {:induction false} CompletedMeansDelivered(sc: Scenario, calls: seq<Call>, v: ServiceState, sid: Id)
    requires Reached(sc, calls, v) && sid in v.sessions && v.sessions[sid].flow.current == COMPLETED
    ensures var s := v.sessions[sid];
      && Delivered(sc.site, s) && s.plan.Some? && |s.moves| == |s.replan.value.plan.nodes|
      && s.replan.value.plan.nodes[0] == s.moves[0].node == s.plan.value.nodes[1]
  {
    hide Delivered, Inv, MotionOk, Standing, TraceExact, Evolves, SetOut, EndsRecovered;
    ReachedOk(sc, calls, v);
    RunLives(sc, calls, v);
    assert SessionOk(sc.site, v.sessions[sid]);
    CompletedMoves(sc.site, v.sessions[sid]);
  }

  /** A completion always comes at the end of a whole recovery: a mission that is never stopped never
      completes. Nothing follows it. */
  lemma {:induction false} CompletionIsRecovered(sc: Scenario, calls: seq<Call>, v: ServiceState, sid: Id)
    requires Reached(sc, calls, v) && sid in v.sessions && COMPLETED in v.sessions[sid].flow.history
    ensures v.sessions[sid].flow.current == COMPLETED && EndsRecovered(v.sessions[sid].flow.history)
  {
    hide CompletedOk, MotionOk, Standing, TraceExact, Inv, Evolves, SetOut, EndsRecovered;
    ReachedOk(sc, calls, v);
    RunLives(sc, calls, v);
    assert SessionOk(sc.site, v.sessions[sid]);
    HistoryEndsCompleted(sc.site, v.sessions[sid]);
  }

  lemma HistoryEndsCompleted(site: Site, s: Session)
    requires Inv(site, s) && COMPLETED in s.flow.history
    ensures s.flow.current == COMPLETED
  {
    hide StageOk, CargoOk, AdapterOk, CopyOk, MovesOk, ReplanOk, TraceOk, ApprovedFirst;
    var i :| 0 <= i < |s.flow.history| && s.flow.history[i] == COMPLETED;
    CompletionIsLast(s.flow.history, i);
  }

  /** Where the scenario's blockage cannot be recorded, no mission is ever blocked, stopped, replanned or
      completed. */
  lemma {:induction false} UnrecordableBlockageNeverCompletes(sc: Scenario, calls: seq<Call>, v: ServiceState, sid: Id)
    requires Reached(sc, calls, v) && sid in v.sessions && !Plant.BlockageOk(sc.site)
    ensures forall m :: m in v.sessions[sid].flow.history ==> m !in {BLOCKED, SAFE_STOP, REPLANNING, COMPLETED}
  {
    hide CompletedOk, MotionOk, Standing, TraceExact, StageOk, CargoOk, AdapterOk, CopyOk, MovesOk, ReplanOk,
      TraceOk, Evolves, SetOut, EndsRecovered;
    ReachedOk(sc, calls, v);
    RunLives(sc, calls, v);
    var s := v.sessions[sid];
    assert SessionOk(sc.site, s);
    NoBlockNoRecovery(s.flow.history);
    if COMPLETED in s.flow.history {
      CompletionIsRecovered(sc, calls, v, sid);
    }
  }

  /** In every run all locations but the destination are as they were when the session was created, the
      source among them: a completed session shows its pallet at both places exactly when the source
      held it then. */
  lemma {:induction false} SourceKeepsItsLoad(sc: Scenario, calls: seq<Call>, v: ServiceState, sid: Id)
    requires Reached(sc, calls, v) && sid in v.sessions
    ensures var s := v.sessions[sid];
      var before, now := sc.world.locations, s.plant.world.locations;
      && now.Keys == before.Keys && (forall l :: l in before && l != s.intent.destination ==> now[l] == before[l])
      && (s.flow.current == COMPLETED ==>
            && s.intent.source in before && s.intent.destination in before
            && now[s.intent.destination].occupancy == Some(s.intent.pallet)
            && (now[s.intent.source].occupancy == Some(s.intent.pallet) <==>
                  before[s.intent.source].occupancy == Some(s.intent.pallet)))
  {
    hide CompletedOk, MotionOk, Standing, TraceExact, Inv, SetOut, Ended, Unhindered, Grows, MovesLogged, KeepsMission;
    ReachedOk(sc, calls, v);
    RunLives(sc, calls, v);
    var s := v.sessions[sid];
    assert SessionOk(sc.site, s) && Lived(sc.site, sc.world, s);
    if s.flow.current == COMPLETED {
      DeliveredLoad(sc.site, s);
    }
  }

  lemma DeliveredLoad(site: Site, s: Session)
    requires Inv(site, s) && CompletedOk(site, s) && s.flow.current == COMPLETED
    ensures var w := s.plant.world;
      && s.intent.source in w.locations && s.intent.destination in w.locations
      && s.intent.source != s.intent.destination
      && w.locations[s.intent.destination].occupancy == Some(s.intent.pallet)
  {
    hide SafeRoute, Plans, FlowOk, ApprovedFirst, TraceOk, CargoOk, MovesOk, ReplanOk, Walked;
    PreparedFacts(site, s);
  }

  lemma {:induction false} ApplyStranded(sc: Scenario, v: ServiceState, c: Call, sid: Id)
    requires ServiceOk(sc.site, v) && Admissible(sc, v, c) && sid in v.sessions && Stranded(v.sessions[sid])
    ensures sid in Apply(sc, v, c).0.sessions && Stranded(Apply(sc, v, c).0.sessions[sid])
  {
    hide SessionOk, Stranded, Attempt, Possible, Counted, Referring;
    var s := v.sessions[sid];
    assert SessionOk(sc.site, s);
    if c.Ask? && Admitted(v, c.request, sid) {
      AttemptStranded(sc.site, s, c.request.target, c.request.op);
    }
  }

  lemma {:induction false} AttemptStranded(site: Site, s: Session, id: Id, op: Operation)
    requires SessionOk(site, s) && Possible(site, s, op) && Stranded(s)
    ensures Stranded(Attempt(site, s, id, op).0)
  {
    hide Evolves, Inv, CompletedOk, Perform, Possible;
    var s1 := s.Log(Accepted(op.Name()));
    LogKeeps(site, s, Accepted(op.Name()));
    SamePossible(site, s, s1, op);
    StrandedStays(site, s1, id, op);
  }

  /** A session whose AGV reached the destination before its workflow completed, as a route of two nodes
      makes it, never completes. */
  lemma {:induction false} StrandedNeverCompletes(sc: Scenario, v: ServiceState, calls: seq<Call>, sid: Id)
    requires ScenarioOk(sc) && ServiceOk(sc.site, v) && Legal(sc, v, calls)
    requires sid in v.sessions && Stranded(v.sessions[sid])
    ensures sid in After(sc, v, calls).sessions && Stranded(After(sc, v, calls).sessions[sid])
    ensures After(sc, v, calls).sessions[sid].flow.current != COMPLETED
  {
    hide ServiceOk, Apply, Admissible;
    if calls != [] {
      var before := calls[..|calls| - 1];
      StrandedNeverCompletes(sc, v, before, sid);
      RunKeeps(sc, v, before);
      ApplyStranded(sc, After(sc, v, before), calls[|calls| - 1], sid);
    }
  }

  // ---- Bookkeeping ----

  /** In every run a session's version is one more than the number of operations committed for it, both
      in the service's records and in the session's trace; no key is pending and committed at once. */
  lemma {:induction false} VersionsCountCommits(sc: Scenario, calls: seq<Call>, v: ServiceState, sid: Id)
    requires Reached(sc, calls, v) && sid in v.sessions
    ensures v.sessions[sid].version == 1 + |CommittedFor(v.operations, sid)| == 1 + |Commits(v.sessions[sid].trace)|
    ensures v.operations.Keys !! v.pending.Keys
  {
    ReachedOk(sc, calls, v);
    assert SessionOk(sc.site, v.sessions[sid]);
  }

  /** A request changes something exactly when it is accepted: a refusal or a replay leaves every
      session, index, record and trace as it was, and an accepted request, even one that raises,
      changes only the session it is about, and that session's trace at least. */
  lemma {:induction false} RefusalsChangeNothing(site: Site, v: ServiceState, r: Request)
    requires ServiceOk(site, v)
    requires forall sid :: Admitted(v, r, sid) ==> Possible(site, v.sessions[sid], r.op)
    ensures var (v', reply) := Handle(site, v, r);
      && (reply.Refuses() <==> v' == v)
      && (forall sid :: sid in v.sessions && Locate(v, r) != Some(sid) ==>
           sid in v'.sessions && v'.sessions[sid] == v.sessions[sid])
  {
    hide SessionOk, Evolves, Attempt, Possible, Counted, Referring;
    if Locate(v, r).Some? && Admitted(v, r, Locate(v, r).value) {
      var sid := Locate(v, r).value;
      assert SessionOk(site, v.sessions[sid]);
      AttemptGrowsTrace(site, v.sessions[sid], r.target, r.op);
    }
  }

  lemma AttemptGrowsTrace(site: Site, s: Session, id: Id, op: Operation)
    requires SessionOk(site, s) && Possible(site, s, op)
    ensures |Attempt(site, s, id, op).0.trace| > |s.trace|
  {
    hide Inv, CompletedOk, Perform, Possible, MovesLogged, KeepsMission;
    var s1 := s.Log(Accepted(op.Name()));
    LogKeeps(site, s, Accepted(op.Name()));
    SamePossible(site, s, s1, op);
    PerformEvolves(site, s1, id, op);
  }

  /** In every run a start that may execute a session for the first time names the mission that waits
      in it, so that it leaves EXECUTING over a failure exactly when the session had executed before; and
      a session that ever executed was moved. */
  lemma {:induction false} StartNamesItsMission(sc: Scenario, calls: seq<Call>, v: ServiceState, r: Request, sid: Id)
    requires Reached(sc, calls, v) && Admissible(sc, v, Ask(r)) && Admitted(v, r, sid) && r.op.Start?
    ensures var s := v.sessions[sid];
      var (t, result) := Attempt(sc.site, s, r.target, r.op);
      && (HasExecuted(s) || (s.mission.Some? && s.mission.value.id == r.target))
      && (HasExecuted(s) ==> s.moves != [])
      && (result.Raised? && t.flow != s.flow && t.flow.current == EXECUTING <==>
            s.flow.current == APPROVED && s.mission.Some? && s.approval.Some? && s.proposal.Some?
            && ValidFor(s.approval.value, s.proposal.value, r.op.now) && HasExecuted(s))
  {
    hide CompletedOk, MotionOk, Standing, TraceExact, Evolves, Inv, Ended, Unhindered, HasExecuted, Attempt, Possible,
      Legal, After, Counted, Referring;
    ReachedOk(sc, calls, v);
    RunLives(sc, calls, v);
    assert SessionOk(sc.site, v.sessions[sid]) && Lived(sc.site, sc.world, v.sessions[sid]);
    assert v.missions[r.target] == sid && Awaits(v.sessions[sid], r.target);
    AttemptRaisesInExecuting(sc.site, v.sessions[sid], r.target, r.op);
  }

  lemma AttemptRaisesInExecuting(site: Site, s: Session, id: Id, op: Operation)
    requires SessionOk(site, s) && op.Start?
    ensures var (t, result) := Attempt(site, s, id, op);
      result.Raised? && t.flow != s.flow && t.flow.current == EXECUTING <==>
        s.flow.current == APPROVED && s.mission.Some? && s.approval.Some? && s.proposal.Some?
        && ValidFor(s.approval.value, s.proposal.value, op.now) && (HasExecuted(s) || s.mission.value.id != id)
  {
    hide CompletedOk, MotionOk, Standing, TraceExact, Evolves, Inv, DoStart;
    var s1 := s.Log(Accepted(START));
    LogKeeps(site, s, Accepted(START));
    if s.flow.current == APPROVED {
      ApprovedFacts(site, s);
    }
    StartRaisesInExecuting(site, s1, id, op.now);
  }

  /** A committed operation is final: its receipt answers the same request for ever, with the same
      session and no change, and no other request with its key is ever accepted again. */
  lemma {:induction false} CommittedOnce(sc: Scenario, v: ServiceState, r: Request, calls: seq<Call>, r': Request)
    requires ScenarioOk(sc) && ServiceOk(sc.site, v) && Admissible(sc, v, Ask(r))
    requires Handle(sc.site, v, r).1.Committed? && Legal(sc, Handle(sc.site, v, r).0, calls)
    ensures var w := After(sc, Handle(sc.site, v, r).0, calls);
      && Handle(sc.site, w, r) == (w, Replayed(Handle(sc.site, v, r).1.session))
      && (r'.OperationKey() == r.OperationKey() ==> Handle(sc.site, w, r').1.Refuses() && Handle(sc.site, w, r').0 == w)
  {
    hide ServiceOk, Attempt, Legal, After, Admissible, Evolves;
    HandleKeeps(sc, v, r);
    var v' := Handle(sc.site, v, r).0;
    RunKeeps(sc, v', calls);
    ExtendsTransitive(v, v', After(sc, v', calls));
  }

  lemma SubsetSize<T>(a: set<T>, b: set<T>)
    requires a <= b
    ensures |a| <= |b|
  {
    assert b == a + (b - a);
  }

  lemma VersionsGrow(site: Site, v: ServiceState, v': ServiceState, sid: Id)
    requires ServiceOk(site, v) && ServiceOk(site, v') && Extends(v, v') && sid in v.sessions
    ensures sid in v'.sessions && v.sessions[sid].version <= v'.sessions[sid].version
  {
    hide SessionsOk, Referring, Evolves;
    SubsetSize(CommittedFor(v.operations, sid), CommittedFor(v'.operations, sid));
  }

  /** No lost updates: once an operation commits, no other request that saw the same version of that
      session, or an older one, is ever accepted for it. */
  lemma {:induction false} NoLostUpdate(sc: Scenario, v: ServiceState, r: Request, calls: seq<Call>, r': Request)
    requires ScenarioOk(sc) && ServiceOk(sc.site, v) && Admissible(sc, v, Ask(r))
    requires Handle(sc.site, v, r).1.Committed? && Legal(sc, Handle(sc.site, v, r).0, calls)
    requires var w := After(sc, Handle(sc.site, v, r).0, calls);
      Locate(w, r') == Some(Handle(sc.site, v, r).1.session) && r'.expected <= r.expected
    ensures var w := After(sc, Handle(sc.site, v, r).0, calls);
      Handle(sc.site, w, r').1.Refuses() && Handle(sc.site, w, r').0 == w
  {
    hide ServiceOk, Legal, After, Admissible, Attempt, Extends;
    HandleKeeps(sc, v, r);
    CommitBumpsVersion(sc, v, r);
    var v' := Handle(sc.site, v, r).0;
    RunKeeps(sc, v', calls);
    VersionsGrow(sc.site, v', After(sc, v', calls), Handle(sc.site, v, r).1.session);
  }

  /** A commit moves the version on from the one the caller expected; a failure leaves it, and leaves
      the key pending until some request with it commits. */
  lemma {:induction false} CommitBumpsVersion(sc: Scenario, v: ServiceState, r: Request)
    requires ServiceOk(sc.site, v) && Admissible(sc, v, Ask(r))
    ensures var (v', reply) := Handle(sc.site, v, r);
      && (reply.Committed? ==> reply.session in v'.sessions && v'.sessions[reply.session].version == r.expected + 1)
      && (reply.Failed? ==> reply.session in v'.sessions && v'.sessions[reply.session].version == r.expected
                            && r.OperationKey() in v'.pending)
  {
    hide SessionOk, Evolves, Attempt, Possible, Counted, Referring;
    if Locate(v, r).Some? && Admitted(v, r, Locate(v, r).value) {
      var sid := Locate(v, r).value;
      assert SessionOk(sc.site, v.sessions[sid]);
      AttemptKeeps(sc.site, v.sessions[sid], r.target, r.op);
    }
  }

  lemma {:induction false} PendingUntilCommitted(sc: Scenario, v: ServiceState, calls: seq<Call>, key: Key)
    requires ScenarioOk(sc) && ServiceOk(sc.site, v) && Legal(sc, v, calls) && key in v.pending
    ensures var w := After(sc, v, calls);
      (key in w.pending && key !in w.operations) || (key !in w.pending && key in w.operations)
  {
    hide SessionsOk, Referring, Counted, Legal, After, Evolves;
    RunKeeps(sc, v, calls);
  }
}
