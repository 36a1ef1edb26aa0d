/** The same mission as requests to the service, from any state of it. */
module HeroService {
  import opened Domain
  import opened Workflow
  import opened Planning
  import opened Safety
  import Plant
  import opened Sessions
  import opened SessionInvariant
  import opened SessionSteps
  import opened SessionEffects
  import opened SessionMotion
  import opened SessionOutcomes
  import opened SessionRaises
  import opened Service
  import opened ServiceRuns
  import opened HeroRun

  function NameAt(stage: nat): OperationName
    requires stage < 6
  {
    match stage case 0 => PREPARE case 1 => APPROVE case 2 => START case 3 => STOP case 4 => REPLAN case _ => RESUME
  }

  function RoleAt(stage: nat): string {
    match stage case 0 => "operator" case 1 => "approver" case 3 => "safety" case 4 => "operator" case _ => "executor"
  }

  /** The request of one stage: for the session, then for its proposal, and then for its mission. */
  function RequestAt(h: Hero, sid: Id, stage: nat, version: nat): Request
    requires stage < 6
  {
    var target := if stage == 0 then sid else if stage == 1 then h.proposal.id else h.missionId;
    Request(OperationAt(h, stage), target, h.actor, RoleAt(stage), "", h.key, version)
  }

  /** The service knows the identifiers filed so far, and no key of a later stage is used. */
  ghost predicate Indexed(v: ServiceState, sid: Id, h: Hero, stage: nat) {
    && (if stage > 0 then Lookup(v.proposals, h.proposal.id) == Some(sid) else h.proposal.id !in v.proposals)
    && (if stage > 1 then Lookup(v.missions, h.missionId) == Some(sid) else h.missionId !in v.missions)
    && Unused(v, h.key, stage)
  }

  ghost predicate Unused(v: ServiceState, key: Id, stage: nat) {
    forall later :: stage <= later < 6 ==> Key(NameAt(later), key) !in v.operations
  }

  /** The session stands at `stage`, with one commit for each operation so far. */
  ghost predicate Reaches(sc: Scenario, v: ServiceState, sid: Id, h: Hero, from: Outset, stage: nat, version: nat) {
    && sid in v.sessions && AtStage(sc.site, v.sessions[sid], h, from, stage) && v.sessions[sid].version == version
    && Indexed(v, sid, h, stage)
  }

  lemma IndexedNext(v: ServiceState, sid: Id, h: Hero, stage: nat, version: nat, t: Session)
    requires stage < 6 && Indexed(v, sid, h, stage)
    requires stage == 0 ==> t.proposal == Some(h.proposal)
    requires stage == 1 ==> t.mission.Some? && t.mission.value.id == h.missionId
    ensures Indexed(Filed(v, RequestAt(h, sid, stage, version), sid, t), sid, h, stage + 1)
  {
  }

  /** The request of each stage is admitted, and commits. */
  lemma {:induction false} StageServes(sc: Scenario, v: ServiceState, sid: Id, h: Hero, from: Outset, stage: nat,
    version: nat)
    requires ServiceOk(sc.site, v) && stage < 6 && Reaches(sc, v, sid, h, from, stage, version)
    requires Fit(sc.site, h, from, stage)
    ensures var r := RequestAt(h, sid, stage, version);
      var (v', reply) := Handle(sc.site, v, r);
      && Admissible(sc, v, Ask(r)) && reply == Reply.Committed(sid, NameAt(stage))
      && Reaches(sc, v', sid, h, from, stage + 1, version + 1)
  {
    hide Attempt, AtStage, Possible, SessionOk, Evolves, Fit, Counted, Referring, Perform;
    var s := v.sessions[sid];
    var r := RequestAt(h, sid, stage, version);
    assert SessionOk(sc.site, s);
    StageCommits(sc.site, s, h, from, stage);
    AttemptKeeps(sc.site, s, h.missionId, r.op);
    TargetDoesNotMatter(sc.site, s, h, stage, r.target);
    CommittedPapers(sc.site, s, r.target, r.op);
    IndexedNext(v, sid, h, stage, version, Attempt(sc.site, s, h.missionId, r.op).0);
  }

  /** Preparing and approving do not look at the mission named in the call. */
  lemma TargetDoesNotMatter(site: Site, s: Session, h: Hero, stage: nat, target: Id)
    requires stage < 6 && (stage > 1 ==> target == h.missionId)
    ensures Attempt(site, s, target, OperationAt(h, stage)) == Attempt(site, s, h.missionId, OperationAt(h, stage))
  {
    hide DoPrepare, DoApprove, DoStart, DoStop, DoReplan, DoResume;
  }

  // ---- A whole run ----

  /** The requests of `n` stages from stage `first` on, each naming the version the one before it left. */
  function HeroCalls(h: Hero, sid: Id, first: nat, version: nat, n: nat): (calls: seq<Call>)
    requires first + n <= 6
    ensures |calls| == n
  {
    if n == 0 then []
    else HeroCalls(h, sid, first, version, n - 1) + [Ask(RequestAt(h, sid, first + n - 1, version + n - 1))]
  }

  /** The `i`-th call commits the operation of its stage. */
  ghost predicate CommitsAt(sc: Scenario, v: ServiceState, calls: seq<Call>, sid: Id, first: nat, i: nat)
    requires i < |calls| && first + i < 6
  {
    Apply(sc, After(sc, v, calls[..i]), calls[i]).1 == Reply.Committed(sid, NameAt(first + i))
  }

  ghost predicate AllCommit(sc: Scenario, v: ServiceState, calls: seq<Call>, sid: Id, first: nat) {
    first + |calls| <= 6 && forall i :: 0 <= i < |calls| ==> CommitsAt(sc, v, calls, sid, first, i)
  }

  lemma OneMore(sc: Scenario, v: ServiceState, calls: seq<Call>, c: Call)
    requires Legal(sc, v, calls) && Admissible(sc, After(sc, v, calls), c)
    ensures Legal(sc, v, calls + [c]) && After(sc, v, calls + [c]) == Apply(sc, After(sc, v, calls), c).0
  {
    hide Admissible, Apply;
    assert (calls + [c])[..|calls|] == calls;
  }

  /** Liveness: wherever the service stands and at whichever stage the session, the requests of the next
      `n` stages are admitted and committed, one after the other, when each stage is fit; after the last
      of the six the load is delivered. What makes a stage fit speaks of the world at the outset alone. */
  lemma {:induction false} HeroRunDelivers(sc: Scenario, v: ServiceState, sid: Id, h: Hero, from: Outset,
    first: nat, version: nat, n: nat)
    requires ScenarioOk(sc) && ServiceOk(sc.site, v) && Reaches(sc, v, sid, h, from, first, version)
    requires first + n <= 6 && forall stage :: first <= stage < first + n ==> Fit(sc.site, h, from, stage)
    ensures var calls := HeroCalls(h, sid, first, version, n);
      && Legal(sc, v, calls) && AllCommit(sc, v, calls, sid, first)
      && Reaches(sc, After(sc, v, calls), sid, h, from, first + n, version + n)
  {
    hide ServiceOk, Apply, Handle, Admissible, Reaches, Fit, ScenarioOk, AllCommit, RequestAt, Extends;
    if n > 0 {
      HeroRunDelivers(sc, v, sid, h, from, first, version, n - 1);
      var before, calls := HeroCalls(h, sid, first, version, n - 1), HeroCalls(h, sid, first, version, n);
      RunKeeps(sc, v, before);
      var u := After(sc, v, before);
      StageServes(sc, u, sid, h, from, first + n - 1, version + n - 1);
      ServedAsAsked(sc, u, RequestAt(h, sid, first + n - 1, version + n - 1));
      OneMore(sc, v, before, calls[n - 1]);
      CommitsOneMore(sc, v, before, calls[n - 1], sid, first);
    } else {
      assert HeroCalls(h, sid, first, version, 0) == [];
      NoneToCommit(sc, v, sid, first);
    }
  }

  lemma NoneToCommit(sc: Scenario, v: ServiceState, sid: Id, first: nat)
    requires first <= 6
    ensures AllCommit(sc, v, [], sid, first)
  {
  }

  lemma CommitsOneMore(sc: Scenario, v: ServiceState, calls: seq<Call>, c: Call, sid: Id, first: nat)
    requires AllCommit(sc, v, calls, sid, first) && first + |calls| < 6
    requires Apply(sc, After(sc, v, calls), c).1 == Reply.Committed(sid, NameAt(first + |calls|))
    ensures AllCommit(sc, v, calls + [c], sid, first)
  {
    hide Apply, After;
    forall i | 0 <= i < |calls| + 1 ensures CommitsAt(sc, v, calls + [c], sid, first, i) {
      assert i < |calls| ==> CommitsAt(sc, v, calls, sid, first, i) && (calls + [c])[..i] == calls[..i];
      assert (calls + [c])[..|calls|] == calls;
    }
  }

  lemma ServedAsAsked(sc: Scenario, v: ServiceState, r: Request)
    ensures Apply(sc, v, Ask(r)) == Handle(sc.site, v, r)
  {
  }

  // ---- A blockage that cannot be recorded ----

  /** The stop then fails, and leaves the mission executing. */
  lemma {:induction false} UnrecordableStopFails(sc: Scenario, v: ServiceState, sid: Id, h: Hero, from: Outset,
    version: nat)
    requires ServiceOk(sc.site, v) && Reaches(sc, v, sid, h, from, 3, version) && !Plant.BlockageOk(sc.site)
    ensures var r := RequestAt(h, sid, 3, version);
      var (v', reply) := Handle(sc.site, v, r);
      && Admissible(sc, v, Ask(r)) && reply == Failed(sid, BadBlockage) && sid in v'.sessions
      && v'.sessions[sid] == v.sessions[sid].Log(Accepted(STOP)) && v'.sessions[sid].flow.current == EXECUTING
  {
    hide SessionOk, Counted, Referring, UnderWay, DrivingWorld, Plant.BlockageOk;
    assert Key(NameAt(3), h.key) !in v.operations;
  }

  // ---- A renewed approval ----

  /** A second approval, asked for after the replan under new identifiers, and the start that follows. */
  datatype Renewal = Renewal(key: Id, token: Id, missionId: Id, issuedAt: real, sealedAt: real, startAt: real)

  function RenewApproval(h: Hero, again: Renewal, version: nat): Request {
    Request(Approve(h.actor, again.token, again.missionId, again.issuedAt, again.sealedAt), h.proposal.id, h.actor,
      "approver", "", again.key, version)
  }

  function RenewStart(h: Hero, again: Renewal, version: nat): Request {
    Request(Start(again.startAt), again.missionId, h.actor, "executor", "", again.key, version)
  }

  /** The workflow executes over a mission that the adapter keeps stopped. */
  ghost predicate Hollow(s: Session) {
    s.flow.current == EXECUTING && Halted(s) && s.mission == Some(TheMission(s))
  }

  lemma RenewedApproval(site: Site, s: Session, h: Hero, from: Outset, again: Renewal)
    requires SessionOk(site, s) && AtStage(site, s, h, from, 5)
    requires again.issuedAt <= again.sealedAt < again.issuedAt + APPROVAL_LIFETIME
    ensures var op := RenewApproval(h, again, 0).op;
      var (t, result) := Attempt(site, s, h.proposal.id, op);
      && Possible(site, s, op) && result == Done && t.flow.current == APPROVED && HasExecuted(t)
      && PapersFiled(t, h) && t.mission.Some? && t.mission.value.id == again.missionId && t.plant == s.plant
      && Dispatched(t) && TheMission(t).id == h.missionId
      && t.approval == Some(IssueApproval(again.token, h.proposal.hash, GoalOf(t.intent), h.actor, again.issuedAt))
  {
    hide Inv, CompletedOk, TraceExact, MotionOk, Evolves, DoApprove, Dispatched;
    var s1 := s.Log(Accepted(APPROVE));
    LogKeeps(site, s, Accepted(APPROVE));
    Approves(site, s1, h, h.actor, again.token, again.missionId, again.issuedAt, again.sealedAt);
    var t := Attempt(site, s, h.proposal.id, RenewApproval(h, again, 0).op).0;
    AttemptKeeps(site, s, h.proposal.id, RenewApproval(h, again, 0).op);
    MissionStays(s, t);
  }

  lemma MissionStays(s: Session, t: Session)
    requires HasExecuted(s) && Dispatched(s) && Evolves(s, t)
    ensures Dispatched(t) && TheMission(t).id == TheMission(s).id
  {
    hide Dispatched, Grows, MovesLogged, KeepsLoads;
  }

  /** The stages from the stop on, under the renewed approval; `next` differs in nothing else that was
      filed before. */
  predicate GoesOn(h: Hero, again: Renewal, next: Hero) {
    next == h.(key := next.key, token := again.token, issuedAt := again.issuedAt, sealedAt := again.sealedAt,
      startAt := again.startAt, trigger := next.trigger, stopAt := next.stopAt, replanAt := next.replanAt,
      replan := next.replan, checkedAt := next.checkedAt, resumeAt := next.resumeAt)
  }

  lemma RenewedStart(site: Site, s: Session, h: Hero, again: Renewal, next: Hero)
    requires SessionOk(site, s) && s.flow.current == APPROVED && HasExecuted(s) && PapersFiled(s, h) && s.mission.Some?
    requires s.approval == Some(IssueApproval(again.token, h.proposal.hash, GoalOf(s.intent), h.actor, again.issuedAt))
    requires again.issuedAt <= again.startAt < again.issuedAt + APPROVAL_LIFETIME
    requires Dispatched(s) && TheMission(s).id == h.missionId && GoesOn(h, again, next)
    ensures var (t, result) := Attempt(site, s, again.missionId, Start(again.startAt));
      result == Raised(AdapterFailed) && Hollow(t) && AtStage(site, t, next, Midway(s.plant.world), 3)
  {
    hide Inv, CompletedOk, TraceExact, MotionOk, Evolves, DoStart;
    var s1 := s.Log(Accepted(START));
    LogKeeps(site, s, Accepted(START));
    SecondStartKeeps(site, s1, again.missionId, again.startAt);
    SecondDispatch(site, s1);
    SelectedExists(site, s);
    var t := DoStart(site, s1, again.missionId, again.startAt).0;
    ExecutedDispatched(site, t);
  }

  lemma SelectedExists(site: Site, s: Session)
    requires Inv(site, s) && HasExecuted(s)
    ensures s.plan.Some? && s.plan.value.agv in s.plant.world.agvs
  {
    hide SafeRoute, Plans;
    PreparedFacts(site, s);
  }

  lemma ExecutedDispatched(site: Site, s: Session)
    requires Inv(site, s) && HasExecuted(s)
    ensures Dispatched(s)
  {
  }

  /** What the renewal and the stages after it ask for: an approval that lasts, and what is new. */
  ghost predicate Renewable(v: ServiceState, h: Hero, again: Renewal, next: Hero) {
    && Key(APPROVE, again.key) !in v.operations && Key(START, again.key) !in v.operations
    && again.missionId !in v.missions && GoesOn(h, again, next) && Unused(v, next.key, 3)
    && again.issuedAt <= again.sealedAt < again.issuedAt + APPROVAL_LIFETIME
    && again.issuedAt <= again.startAt < again.issuedAt + APPROVAL_LIFETIME
  }

  /** After a replan, a renewed approval commits, and the start that follows always fails: it leaves the
      workflow executing over a mission that stays stopped. From there the stages begin again at the
      stop, which still has to name the first mission. */
  lemma {:induction false} RenewalStrands(sc: Scenario, v: ServiceState, sid: Id, h: Hero, from: Outset,
    version: nat, again: Renewal, next: Hero)
    requires ScenarioOk(sc) && ServiceOk(sc.site, v) && Reaches(sc, v, sid, h, from, 5, version)
    requires Renewable(v, h, again, next)
    ensures var (v1, reply1) := Handle(sc.site, v, RenewApproval(h, again, version));
      var (v2, reply2) := Handle(sc.site, v1, RenewStart(h, again, version + 1));
      && Admissible(sc, v, Ask(RenewApproval(h, again, version))) && reply1 == Reply.Committed(sid, APPROVE)
      && Admissible(sc, v1, Ask(RenewStart(h, again, version + 1))) && reply2 == Failed(sid, AdapterFailed)
      && sid in v2.sessions && Hollow(v2.sessions[sid])
      && Reaches(sc, v2, sid, next, Midway(v.sessions[sid].plant.world), 3, version + 1)
  {
    hide Attempt, AtStage, SessionOk, Evolves, Counted, Referring, Perform, Hollow;
    var r, s := RenewApproval(h, again, version), v.sessions[sid];
    assert SessionOk(sc.site, s);
    RenewedApproval(sc.site, s, h, from, again);
    CommittedPapers(sc.site, s, r.target, r.op);
    AttemptKeeps(sc.site, s, r.target, r.op);
    var t := Attempt(sc.site, s, r.target, r.op).0;
    var v1 := Handle(sc.site, v, r).0;
    assert v1 == Filed(v, r, sid, t);
    RenewedStart(sc.site, t, h, again, next);
    AttemptKeeps(sc.site, t, again.missionId, Start(again.startAt));
  }

  /** The three requests that follow lead on, to the delivery: a stop of the mission that is stopped
      already, a replan and a resume. */
  lemma {:induction false} RecoveryDelivers(sc: Scenario, v: ServiceState, sid: Id, h: Hero, from: Outset,
    version: nat, again: Renewal, next: Hero)
    requires ScenarioOk(sc) && ServiceOk(sc.site, v) && Reaches(sc, v, sid, h, from, 5, version)
    requires Renewable(v, h, again, next)
    requires forall stage :: 3 <= stage < 6 ==> Fit(sc.site, next, Midway(v.sessions[sid].plant.world), stage)
    ensures var v1 := Handle(sc.site, v, RenewApproval(h, again, version)).0;
      var v2 := Handle(sc.site, v1, RenewStart(h, again, version + 1)).0;
      var calls := HeroCalls(next, sid, 3, version + 1, 3);
      && sid in v2.sessions && Hollow(v2.sessions[sid])
      && Legal(sc, v2, calls) && AllCommit(sc, v2, calls, sid, 3) && sid in After(sc, v2, calls).sessions
      && var t := After(sc, v2, calls).sessions[sid];
        t.flow.current == COMPLETED && Delivered(sc.site, t)
  {
    hide ServiceOk, Handle, Renewable, Fit, ScenarioOk, AllCommit, Extends, Delivered, Legal, After, Hollow;
    RenewalStrands(sc, v, sid, h, from, version, again, next);
    var approve, start := RenewApproval(h, again, version), RenewStart(h, again, version + 1);
    HandleKeeps(sc, v, approve);
    HandleKeeps(sc, Handle(sc.site, v, approve).0, start);
    HeroRunDelivers(sc, Handle(sc.site, Handle(sc.site, v, approve).0, start).0, sid, next,
      Midway(v.sessions[sid].plant.world), 3, version + 1, 3);
  }

  // ---- A route of two nodes ----

  /** Started, it is delivered, and its workflow can never complete. */
  lemma {:induction false} TwoNodeServes(sc: Scenario, v: ServiceState, sid: Id, h: Hero, from: Outset, version: nat)
    requires ServiceOk(sc.site, v) && Reaches(sc, v, sid, h, from, 2, version) && Lasts(h, h.startAt) &&
      |h.plan.nodes| == 2
    ensures var r := RequestAt(h, sid, 2, version);
      var (v', reply) := Handle(sc.site, v, r);
      && Admissible(sc, v, Ask(r)) && reply == Reply.Committed(sid, START) && sid in v'.sessions
      && Stranded(v'.sessions[sid])
  {
    hide Attempt, SessionOk, Evolves, Counted, Referring, Perform, Stranded, UnderWay;
    assert SessionOk(sc.site, v.sessions[sid]);
    assert Key(NameAt(2), h.key) !in v.operations;
    TwoNodeAttempt(sc.site, v.sessions[sid], h, from);
  }

  lemma TwoNodeAttempt(site: Site, s: Session, h: Hero, from: Outset)
    requires SessionOk(site, s) && AtStage(site, s, h, from, 2) && Lasts(h, h.startAt) && |h.plan.nodes| == 2
    ensures var (t, result) := Attempt(site, s, h.missionId, Start(h.startAt));
      result == Done && Stranded(t)
  {
    hide Inv, CompletedOk, TraceExact, MotionOk, Evolves, DoStart, Dispatched;
    var s1 := s.Log(Accepted(START));
    LogKeeps(site, s, Accepted(START));
    StartCommits(site, s1, h.missionId, h.startAt);
    TwoNodeStartStrands(site, s1, h.missionId, h.startAt);
    StartKeepsApproval(site, s1, h.missionId, h.startAt);
  }
}
