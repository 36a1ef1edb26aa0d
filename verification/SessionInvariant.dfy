/** What every operation keeps true of a session, wherever it raises. */
module SessionInvariant {
  import opened Domain
  import opened Workflow
  import opened RoutePlanner
  import opened Planning
  import opened Safety
  import opened Agreement
  import Plant
  import opened Sessions

  // ---- History and trace ----

  ghost predicate HasExecuted(s: Session) { EXECUTING in s.flow.history }

  /** The first execution comes right after an approval; the transition table alone would let it come
      right after the proof. */
  ghost predicate ApprovedFirst(history: seq<MissionStatus>) {
    forall i :: 0 <= i < |history| && history[i] == EXECUTING && EXECUTING !in history[..i] ==>
      i > 0 && history[i - 1] == APPROVED
  }

  ghost predicate HistoryOk(s: Session) {
    && FlowOk(s.flow) && ApprovedFirst(s.flow.history)
    && (s.replan.Some? || s.flow.current in {EXECUTING, BLOCKED, SAFE_STOP, REPLANNING, COMPLETED} ==> HasExecuted(s))
  }

  /** The states named by the trace's transition spans. */
  function Recorded(trace: seq<Span>): seq<MissionStatus> {
    if trace == [] then []
    else
      var rest := Recorded(trace[..|trace| - 1]);
      match trace[|trace| - 1] case Transitioned(state) => rest + [state] case _ => rest
  }

  /** The operations that the trace records as committed. */
  function Commits(trace: seq<Span>): seq<OperationName> {
    if trace == [] then []
    else
      var rest := Commits(trace[..|trace| - 1]);
      match trace[|trace| - 1] case Committed(name, _) => rest + [name] case _ => rest
  }

  lemma TraceGrows(trace: seq<Span>, span: Span)
    ensures Recorded(trace + [span]) == Recorded(trace) + (if span.Transitioned? then [span.state] else [])
    ensures Commits(trace + [span]) == Commits(trace) + (if span.Committed? then [span.name] else [])
  {
    assert (trace + [span])[..|trace|] == trace;
  }

  /** The trace records every transition but one: that into the state in which an operation aborted. */
  ghost predicate TraceOk(s: Session) {
    var h := s.flow.history;
    && s.version == 1 + |Commits(s.trace)| && h != []
    && (Recorded(s.trace) == h[1..]
        || (s.flow.current in {FAILED_SAFE, REJECTED} && |h| > 1 && Recorded(s.trace) == h[1..|h| - 1]))
  }

  // ---- The prepared mission ----

  /** The snapshot shows this site and the entities this world still has. */
  ghost predicate Shows(site: Site, w: Plant.World, snapshot: Snapshot) {
    && snapshot.nodes == site.nodes && snapshot.edges == site.edges
    && snapshot.agvs.Keys == w.agvs.Keys && snapshot.pallets.Keys == w.pallets.Keys
    && snapshot.locations.Keys == w.locations.Keys
    && forall l :: l in w.locations ==> snapshot.locations[l].node == w.locations[l].node
  }

  /** A proposal whose route proof passed. */
  ghost predicate Prepared(site: Site, s: Session) {
    && s.snapshot.Some? && s.plan.Some? && s.proposal.Some?
    && Shows(site, s.plant.world, s.snapshot.value) && Plant.OnMap(site, s.plant.world)
    && Plans(s.snapshot.value, s.intent, None, None, Planned(s.plan.value))
    && SafeRoute(s.intent, s.plan.value, s.snapshot.value)
    && VersionsMatch(s.plan.value, s.snapshot.value, s.proposal.value)
    && SemanticsMatch(s.intent, s.plan.value, s.proposal.value)
  }

  ghost predicate CargoOk(s: Session) {
    var w := s.plant.world;
    && (forall l :: l in w.locations ==> Plant.Aligned(w.locations[l]))
    && (s.intent.destination in w.locations && s.proof.Some? && s.flow.current != REJECTED ==>
          w.locations[s.intent.destination].occupancy in {None, Some(s.intent.pallet)})
  }

  // ---- The adapter ----

  /** The mission does this session's job: the pallet, the endpoints, the AGV and the goal that were
      approved. */
  ghost predicate SameJob(s: Session, m: Mission)
    requires s.proposal.Some? && s.plan.Some?
  {
    && m.proposalHash == s.proposal.value.hash && m.goal == GoalOf(s.intent)
    && m.pallet == s.intent.pallet && m.source == s.intent.source && m.destination == s.intent.destination
    && m.agv == s.plan.value.agv && m.index >= 0
  }

  ghost predicate StatusOk(current: MissionStatus, status: MissionStatus) {
    || status == SAFE_STOP
    || (status == EXECUTING && current in {EXECUTING, BLOCKED})
    || (status == COMPLETED && current in {EXECUTING, BLOCKED, COMPLETED})
  }

  /** The adapter holds exactly one mission, started under this proposal's dispatch key. */
  ghost predicate Dispatched(s: Session) {
    && s.proposal.Some? && s.plan.Some?
    && var a := s.plant.adapter;
      var hash := s.proposal.value.hash;
      && a.started.Keys == {hash} && a.missions.Keys == {a.started[hash]}
      && SameJob(s, TheMission(s)) && TheMission(s).id == a.started[hash]
      && StatusOk(s.flow.current, TheMission(s).status)
  }

  ghost function TheMission(s: Session): Mission
    requires s.proposal.Some? && s.plant.adapter.started.Keys == {s.proposal.value.hash}
    requires s.plant.adapter.missions.Keys == {s.plant.adapter.started[s.proposal.value.hash]}
  {
    s.plant.adapter.missions[s.plant.adapter.started[s.proposal.value.hash]]
  }

  ghost predicate AdapterOk(s: Session) {
    if HasExecuted(s) then Dispatched(s)
    else s.plant.adapter == Plant.Adapter(map[], map[]) && s.moves == []
  }

  /** The session's own copy of the mission: a newly approved one, or the adapter's. */
  ghost predicate CopyOk(s: Session) {
    && (s.flow.current == EXECUTING ==> s.mission.Some? && s.mission.value.status != APPROVED)
    && (s.mission.Some? ==>
          && s.proposal.Some? && s.plan.Some? && SameJob(s, s.mission.value)
          && if s.mission.value.status == APPROVED
             then s.mission.value.route == s.plan.value.nodes && s.mission.value.index == 0
             else s.mission.value.id in s.plant.adapter.missions)
  }

  // ---- Replans and moves ----

  /** The replan is safe, for the same AGV, and starts where that AGV stands. */
  ghost predicate ReplanSafe(site: Site, s: Session, r: Replanned) {
    && s.plan.Some?
    && Shows(site, s.plant.world, r.snapshot)
    && SafeRoute(s.intent, r.plan, r.snapshot)
    && r.plan.agv == s.plan.value.agv && r.plan.agv in s.plant.world.agvs
    && Plans(r.snapshot, s.intent, Some(r.plan.nodes[0]), Some(r.plan.agv), Planned(r.plan))
    && (s.flow.current != COMPLETED ==> s.plant.world.agvs[r.plan.agv].node == r.plan.nodes[0])
  }

  ghost predicate ReplanOk(site: Site, s: Session) {
    s.replan.Some? && s.replan.value.proof.passed ==> ReplanSafe(site, s, s.replan.value)
  }

  /** The authority covers this session's job: its route's safety proof passed for this intent and this
      AGV, and an approval of this proposal and goal was valid. */
  ghost predicate Covers(s: Session, auth: Authority) {
    && s.proposal.Some? && s.plan.Some? && s.proposal.value.goal == s.intent
    && auth.plan.agv == s.plan.value.agv
    && SafeRoute(s.intent, auth.plan, auth.snapshot)
    && ValidFor(auth.approval, s.proposal.value, auth.at)
  }

  ghost predicate Authorised(s: Session, move: Move) {
    move.node in move.auth.plan.nodes && Covers(s, move.auth)
  }

  ghost predicate MovesOk(s: Session) {
    forall i :: 0 <= i < |s.moves| ==> Authorised(s, s.moves[i])
  }

  // ---- Stages ----

  ghost predicate StageOk(site: Site, s: Session) {
    && (s.flow.current in {VERIFIED, APPROVED, EXECUTING, BLOCKED, SAFE_STOP, REPLANNING, COMPLETED} ||
         HasExecuted(s) ==>
          Prepared(site, s) && s.proof.Some?)
    && (s.flow.current in {INTENT, OBSERVED, PLANNED, PROPOSED} ==>
          s.mission.None? && s.replan.None? && !HasExecuted(s))
    && (s.flow.current == INTENT ==> s.plan.None? && s.proposal.None? && s.proof.None?)
  }

  /** What holds even between the advances of one resume. */
  ghost predicate Core(site: Site, s: Session) {
    HistoryOk(s) && TraceOk(s) && StageOk(site, s) && CargoOk(s) && AdapterOk(s) && CopyOk(s) && MovesOk(s)
  }

  ghost predicate Inv(site: Site, s: Session) {
    Core(site, s) && ReplanOk(site, s)
  }

  lemma {:induction false} NewSessionOk(site: Site, world: Plant.World, intent: Intent)
    requires forall l :: l in world.locations ==> Plant.Aligned(world.locations[l])
    ensures Inv(site, New(world, intent))
    ensures var s := New(world, intent);
      && s.plant.world == world && s.plant.adapter.missions == map[] && s.plant.adapter.started == map[]
      && s.flow.current == INTENT && s.flow.history == [INTENT] && s.intent == intent && s.version == 1
      && s.snapshot.None? && s.plan.None? && s.proposal.None? && s.proof.None? && s.approval.None?
      && s.mission.None? && s.replan.None? && s.trace == [] && s.moves == []
  {
  }

  // ---- Transitions ----

  lemma HistoryEnters(s: Session, t: Session, target: MissionStatus)
    requires HistoryOk(s) && target in Allowed(s.flow.current) && t.flow == s.flow.To(target)
    requires target == EXECUTING ==> HasExecuted(s) || s.flow.current == APPROVED
    requires t.replan.Some? ==> s.replan.Some? || HasExecuted(s)
    ensures HistoryOk(t) && (HasExecuted(t) <==> HasExecuted(s) || target == EXECUTING)
  {
    var h, h' := s.flow.history, t.flow.history;
    ToKeepsFlow(s.flow, target);
    forall i | 0 <= i < |h'| && h'[i] == EXECUTING && EXECUTING !in h'[..i]
      ensures i > 0 && h'[i - 1] == APPROVED
    {
      assert i < |h| ==> h'[..i] == h[..i];
      assert i == |h| ==> h'[..i] == h;
    }
    assert EXECUTING in h ==> EXECUTING in h';
    assert h'[|h|] == target;
  }

  lemma TailAppend(h: seq<MissionStatus>, target: MissionStatus)
    requires h != []
    ensures (h + [target])[1..] == h[1..] + [target]
    ensures (h + [target])[1..|h|] == h[1..]
  {
  }

  lemma TraceEnters(s: Session, t: Session, target: MissionStatus)
    requires TraceOk(s) && target in Allowed(s.flow.current) && t.version == s.version
    requires t.flow == s.flow.To(target)
    requires t.trace == s.trace + [Transitioned(target)]
      || (t.trace == s.trace && target in {FAILED_SAFE, REJECTED})
    ensures TraceOk(t)
  {
    assert s.flow.current !in {FAILED_SAFE, REJECTED};
    TailAppend(s.flow.history, target);
    TraceGrows(s.trace, Transitioned(target));
  }
}
