/** What holds over every run of the mission service. */
module ServiceRuns {
  import opened Domain
  import opened Workflow
  import opened Planning
  import opened Safety
  import opened Sessions
  import opened SessionInvariant
  import opened SessionSteps
  import opened SessionEffects
  import opened SessionOutcomes
  import opened SessionMotion
  import opened SessionRaises
  import opened Service
  import Plant

  // ---- One accepted operation ----

  ghost predicate SoundSession(site: Site, s: Session) {
    Inv(site, s) && Standing(s) && CompletedOk(site, s) && MotionOk(s)
  }

  /** A refusal or an override was committed. */
  ghost predicate Closed(s: Session) { REJECT in Commits(s.trace) || OVERRIDE in Commits(s.trace) }

  /** The trace tells the whole history, unless an operation aborted; and a refusal is final. */
  ghost predicate TraceExact(s: Session) {
    && (Complete(s) <==> s.flow.current !in {FAILED_SAFE, REJECTED} || Closed(s))
    && (Closed(s) ==> s.flow.current in {FAILED_SAFE, REJECTED})
  }

  ghost predicate SessionOk(site: Site, s: Session) { SoundSession(site, s) && TraceExact(s) }

  /** Two sessions that differ in bookkeeping only. */
  ghost predicate Bookkeeping(s: Session, t: Session) {
    && t == s.(version := t.version, mission := t.mission, trace := t.trace) && s.trace <= t.trace
    && (t.mission == s.mission
        || (s.mission.Some? && t.mission.Some? &&
          t.mission.value == s.mission.value.(version := t.mission.value.version)))
  }

  lemma LogKeeps(site: Site, s: Session, span: Span)
    requires SoundSession(site, s) && (span.Accepted? || span.Telemetry?)
    ensures SoundSession(site, s.Log(span)) && Evolves(s, s.Log(span)) && Bookkeeping(s, s.Log(span))
  {
    hide Evolves, StageOk, CargoOk, AdapterOk, CopyOk, MovesOk, HistoryOk, ReplanOk, CompletedOk;
    TraceGrows(s.trace, span);
    BookkeepingKeeps(site, s, s.Log(span));
  }

  lemma FinishKeeps(site: Site, s: Session, name: OperationName)
    requires SoundSession(site, s)
    ensures SoundSession(site, Finish(s, name)) && Evolves(s, Finish(s, name)) && Bookkeeping(s, Finish(s, name))
  {
    hide Evolves, SoundSession;
    FinishKeepsTrace(site, s, name);
    BookkeepingKeeps(site, s, Finish(s, name));
  }

  lemma FinishKeepsTrace(site: Site, s: Session, name: OperationName)
    requires SoundSession(site, s)
    ensures TraceOk(Finish(s, name))
  {
    hide StageOk, CargoOk, AdapterOk, CopyOk, MovesOk, HistoryOk, ReplanOk, CompletedOk;
    TraceGrows(s.trace, Span.Committed(name, s.version + 1));
  }

  lemma BookkeepingKeepsInv(site: Site, s: Session, t: Session)
    requires Inv(site, s) && Bookkeeping(s, t) && TraceOk(t)
    ensures Inv(site, t) && Grows(s, t)
  {
    hide Plans, SafeRoute, FlowOk, ApprovedFirst, TraceOk, Authorised, Plant.Aligned, Shows;
    MovesKept(s, t);
  }

  lemma BookkeepingKeeps(site: Site, s: Session, t: Session)
    requires SoundSession(site, s) && Bookkeeping(s, t) && TraceOk(t)
    ensures SoundSession(site, t) && Evolves(s, t)
  {
    hide Evolves, Inv, MotionOk, CompletedOk, Standing;
    BookkeepingKeepsInv(site, s, t);
    MotionKept(s, t);
    DeliveredKept(site, s, t);
    PaperworkEvolves(site, s, t);
    StandingKept(s, t);
  }

  lemma DeliveredKept(site: Site, s: Session, t: Session)
    requires Bookkeeping(s, t) && CompletedOk(site, s)
    ensures CompletedOk(site, t)
  {
    hide Linked, Continues, Plant.Arrived;
    if t.flow.current == COMPLETED {
      var nodes := s.replan.value.plan.nodes;
      var at: real :| Walked(s, nodes, Authority(s.replan.value.plan, s.replan.value.snapshot, s.approval.value, at));
      assert Walked(t, nodes, Authority(s.replan.value.plan, s.replan.value.snapshot, s.approval.value, at));
    }
  }

  // ---- One attempt ----

  /** An attempt keeps the session invariants, lets the session evolve, and moves the version on exactly
      when it commits. */
  lemma {:induction false} AttemptKeeps(site: Site, s: Session, id: Id, op: Operation)
    requires SessionOk(site, s) && Possible(site, s, op)
    ensures var (t, result) := Attempt(site, s, id, op);
      && SessionOk(site, t) && Evolves(s, t) && t.version == s.version + (if result.Done? then 1 else 0)
  {
    hide Evolves, Inv, CompletedOk, MotionOk, TraceExact, Perform, MayReplan, BothLive, Preserves, Plans, Plant.Capture;
    var name := op.Name();
    var s1 := s.Log(Accepted(name));
    LogKeeps(site, s, Accepted(name));
    AttemptTraced(site, s, id, op);
    SamePossible(site, s, s1, op);
    PerformKeeps(site, s1, id, op);
    PerformEvolves(site, s1, id, op);
    PerformIsSound(site, s1, id, op);
    PerformKeepsVersion(site, s1, id, op);
    var (t, result) := Perform(site, s1, id, op);
    EvolvesTransitive(s, s1, t);
    if result.Done? {
      FinishKeeps(site, t, name);
      EvolvesTransitive(s, t, Finish(t, name));
    }
  }

  lemma PerformIsSound(site: Site, s: Session, id: Id, op: Operation)
    requires SoundSession(site, s) && Possible(site, s, op)
    ensures SoundSession(site, Perform(site, s, id, op).0)
  {
    hide Inv, CompletedOk, MotionOk, Standing, Evolves, Perform, Possible;
    PerformKeepsMotion(site, s, id, op);
    PerformKeeps(site, s, id, op);
    PerformEvolves(site, s, id, op);
    StandingKept(s, Perform(site, s, id, op).0);
    SessionOutcomes.CompletedKeeps(site, s, id, op);
  }

  lemma {:induction false} CommitsPrefix(trace: seq<Span>, trace': seq<Span>)
    requires trace <= trace'
    ensures Commits(trace) <= Commits(trace')
    decreases |trace'|
  {
    if |trace| < |trace'| {
      CommitsPrefix(trace, trace'[..|trace'| - 1]);
    } else {
      assert trace == trace';
    }
  }

  /** An operation records no commit of its own. */
  lemma PerformCommitsNothing(site: Site, s: Session, id: Id, op: Operation)
    requires Inv(site, s) && Possible(site, s, op)
    ensures Commits(Perform(site, s, id, op).0.trace) == Commits(s.trace)
  {
    hide StageOk, CargoOk, AdapterOk, CopyOk, MovesOk, HistoryOk, ReplanOk, Perform, Possible, MovesLogged,
      KeepsMission;
    var t := Perform(site, s, id, op).0;
    PerformKeeps(site, s, id, op);
    PerformEvolves(site, s, id, op);
    PerformKeepsVersion(site, s, id, op);
    CommitsPrefix(s.trace, t.trace);
  }

  /** The state in which each operation succeeds. */
  function Goal(name: OperationName): MissionStatus {
    match name
    case PREPARE => VERIFIED
    case APPROVE => APPROVED
    case REJECT => REJECTED
    case START => EXECUTING
    case STOP => SAFE_STOP
    case REPLAN => VERIFIED
    case RESUME => COMPLETED
    case OVERRIDE => FAILED_SAFE
  }

  lemma SuccessReachesGoal(site: Site, s: Session, id: Id, op: Operation)
    requires Perform(site, s, id, op).1.Done?
    ensures Perform(site, s, id, op).0.flow.current == Goal(op.Name())
  {
    hide RouteProof, BindApproval, Plant.Capture, Plant.Start, Plant.Advance, Plant.LocalStop, Plant.ReplaceRoute,
      ValidFor, Drive, Plant.LocalStopLeft, Plant.AdvanceLeft, Plant.StartLeft, Plant.Blocked;
    match op
    case Prepare(now, planned, proposed) =>
      assert DoPrepare(site, s, now, planned, proposed).0.flow.current == VERIFIED;
    case Stop(trigger, now) =>
      assert DoStop(site, s, id, trigger, now).0.flow.current == SAFE_STOP;
    case Replan(now, recovery, planned, checkedAt) =>
      assert DoReplan(site, s, now, recovery, planned, checkedAt).0.flow.current == VERIFIED;
    case _ =>
  }

  lemma AttemptTraced(site: Site, s: Session, id: Id, op: Operation)
    requires Inv(site, s) && Possible(site, s, op) && TraceExact(s)
    requires Inv(site, s.Log(Accepted(op.Name())))
    ensures TraceExact(Attempt(site, s, id, op).0)
  {
    hide Inv, Perform, Possible, Complete, TraceExact, Commits, Recorded;
    var s1 := s.Log(Accepted(op.Name()));
    AcceptTells(s, op.Name());
    SamePossible(site, s, s1, op);
    PerformCommitsNothing(site, s1, id, op);
    var (t, result) := Perform(site, s1, id, op);
    if s.flow.current in {FAILED_SAFE, REJECTED} {
      FinalStatesAreFrozen(site, s1, id, op);
    } else {
      OpenIsComplete(s1);
      AbortsGoUnrecorded(site, s1, id, op);
      if result.Done? {
        SuccessReachesGoal(site, s1, id, op);
        SuccessTells(s1, t, op.Name());
      } else {
        RaiseTells(s1, t, result);
      }
    }
  }

  lemma AcceptTells(s: Session, name: OperationName)
    requires TraceExact(s)
    ensures TraceExact(s.Log(Accepted(name)))
  {
    hide Commits, Recorded, Complete;
    TraceGrows(s.trace, Accepted(name));
    SameTelling(s, s.Log(Accepted(name)));
  }

  lemma OpenIsComplete(s: Session)
    requires TraceExact(s) && s.flow.current !in {FAILED_SAFE, REJECTED}
    ensures Complete(s)
  {
  }

  lemma SuccessTells(s: Session, t: Session, name: OperationName)
    requires TraceExact(s) && s.flow.current !in {FAILED_SAFE, REJECTED} && Commits(t.trace) == Commits(s.trace)
    requires Complete(t) && t.flow.current == Goal(name)
    ensures TraceExact(Finish(t, name))
  {
    hide Commits, Recorded, Complete;
    TraceGrows(t.trace, Span.Committed(name, t.version + 1));
    SameTelling(t, Finish(t, name));
  }

  lemma RaiseTells(s: Session, t: Session, result: Result)
    requires TraceExact(s) && s.flow.current !in {FAILED_SAFE, REJECTED} && Commits(t.trace) == Commits(s.trace)
    requires result.Raised? && (Complete(t) <==> !Aborted(s, t, result))
    ensures TraceExact(t)
  {
    hide Commits, Recorded, Complete;
  }

  lemma SameTelling(s: Session, t: Session)
    requires t.flow == s.flow && Recorded(t.trace) == Recorded(s.trace)
    ensures Complete(t) <==> Complete(s)
  {
  }

  lemma SamePossible(site: Site, s: Session, t: Session, op: Operation)
    requires Possible(site, s, op) && t == s.(trace := t.trace)
    ensures Possible(site, t, op)
  {
    hide Plans, Plant.Capture;
  }

  lemma {:induction false} DriveKeepsVersion(site: Site, s: Session, id: Id, auth: Authority)
    ensures Drive(site, s, id, auth).0.version == s.version
    decreases Remaining(s.plant, id)
  {
    if s.mission.Some? && s.mission.value.status == EXECUTING && Plant.Advance(site, s.plant, id).Some? {
      var (plant, m) := Plant.Advance(site, s.plant, id).value;
      DriveKeepsVersion(site, Moved(s, plant, m, auth), id, auth);
    }
  }

  lemma PerformKeepsVersion(site: Site, s: Session, id: Id, op: Operation)
    ensures Perform(site, s, id, op).0.version == s.version
  {
    hide RouteProof, BindApproval, Plant.Capture, Plant.Blocked, Plant.Start, Plant.Advance, Plant.LocalStop, ValidFor;
    match op {
      case Resume(now) =>
        if MayResume(s, now) && Plant.ReplaceRoute(s.plant, id, s.replan.value.plan).Some? {
          var (plant, m) := Plant.ReplaceRoute(s.plant, id, s.replan.value.plan).value;
          DriveKeepsVersion(site, s.(plant := plant, mission := Some(m)).Enter(EXECUTING), id, ResumeAuthority(s, now));
        }
      case Prepare(now, planned, proposed) =>
        PrepareKeepsVersion(site, s, now, planned, proposed);
      case Replan(now, recovery, planned, checkedAt) =>
        ReplanKeepsVersion(site, s, now, recovery, planned, checkedAt);
      case _ =>
    }
  }

  lemma PrepareKeepsVersion(site: Site, s: Session, now: real, planned: Outcome, proposed: Option<Proposal>)
    ensures DoPrepare(site, s, now, planned, proposed).0.version == s.version
  {
    hide RouteProof, Plant.Capture;
  }

  lemma ReplanKeepsVersion(site: Site, s: Session, now: real, recovery: Option<Recovery>, planned: Outcome,
    checkedAt: real)
    ensures DoReplan(site, s, now, recovery, planned, checkedAt).0.version == s.version
  {
    hide RouteProof, BindApproval, Plant.Capture;
  }

  // ---- The service invariant ----

  /** The keys committed for one session. */
  ghost function CommittedFor(operations: map<Key, Receipt>, sid: Id): set<Key> {
    set k | k in operations && operations[k].session == sid
  }

  ghost predicate SessionsOk(site: Site, v: ServiceState) {
    forall sid :: sid in v.sessions ==> SessionOk(site, v.sessions[sid])
  }

  ghost predicate Referring(v: ServiceState) {
    && (forall p :: p in v.proposals ==> v.proposals[p] in v.sessions)
    && (forall m :: m in v.missions ==> v.missions[m] in v.sessions)
    && (forall k :: k in v.operations ==> v.operations[k].session in v.sessions)
    && (forall k :: k in v.pending ==> v.pending[k].session in v.sessions)
  }

  ghost predicate Counted(v: ServiceState) {
    forall sid :: sid in v.sessions ==> v.sessions[sid].version == 1 + |CommittedFor(v.operations, sid)|
  }

  /** Every session is sound, no key is both pending and committed, and every session's version counts
      the keys committed for it. */
  ghost predicate ServiceOk(site: Site, v: ServiceState) {
    SessionsOk(site, v) && Referring(v) && v.operations.Keys !! v.pending.Keys && Counted(v)
  }

  /** Sessions evolve, and what is filed stays. A pending key can only become a committed one. */
  ghost predicate Extends(v: ServiceState, v': ServiceState) {
    && (forall sid :: sid in v.sessions ==> sid in v'.sessions && Evolves(v.sessions[sid], v'.sessions[sid]))
    && Submap(v.proposals, v'.proposals) && Submap(v.missions, v'.missions)
    && Submap(v.operations, v'.operations)
    && v.pending.Keys <= v'.pending.Keys + v'.operations.Keys
  }

  ghost predicate Submap<K, V>(m: map<K, V>, m': map<K, V>) {
    forall k :: k in m ==> k in m' && m'[k] == m[k]
  }

  lemma CommittedForGrows(operations: map<Key, Receipt>, key: Key, receipt: Receipt, sid: Id)
    requires key !in operations
    ensures |CommittedFor(operations[key := receipt], sid)|
         == |CommittedFor(operations, sid)| + (if receipt.session == sid then 1 else 0)
  {
    var after := CommittedFor(operations[key := receipt], sid);
    if receipt.session == sid {
      assert after == CommittedFor(operations, sid) + {key};
    } else {
      assert after == CommittedFor(operations, sid);
    }
  }

  lemma EvolvesReflexive(site: Site, s: Session)
    requires Inv(site, s)
    ensures Evolves(s, s)
  {
    hide Inv, Evolves;
    PaperworkEvolves(site, s, s);
  }

  lemma ExtendsReflexive(site: Site, v: ServiceState)
    requires SessionsOk(site, v)
    ensures Extends(v, v)
  {
    hide Inv, CompletedOk, Evolves;
    forall sid | sid in v.sessions ensures Evolves(v.sessions[sid], v.sessions[sid]) {
      EvolvesReflexive(site, v.sessions[sid]);
    }
  }

  lemma ExtendsTransitive(v: ServiceState, v': ServiceState, v'': ServiceState)
    requires Extends(v, v') && Extends(v', v'')
    ensures Extends(v, v'')
  {
    hide Evolves;
    forall sid | sid in v.sessions ensures sid in v''.sessions && Evolves(v.sessions[sid], v''.sessions[sid]) {
      EvolvesTransitive(v.sessions[sid], v'.sessions[sid], v''.sessions[sid]);
    }
  }

  /** One session is replaced by what it evolves into, with the rest of the records as given. */
  lemma SessionStep(site: Site, v: ServiceState, v': ServiceState, sid: Id)
    requires ServiceOk(site, v) && sid in v.sessions && v'.sessions.Keys == v.sessions.Keys
    requires v'.sessions == v.sessions[sid := v'.sessions[sid]]
    requires SessionOk(site, v'.sessions[sid]) && Evolves(v.sessions[sid], v'.sessions[sid])
    requires Submap(v.proposals, v'.proposals) && Submap(v.missions, v'.missions) && Submap(v.operations, v'.operations)
    requires v.pending.Keys <= v'.pending.Keys + v'.operations.Keys
    ensures SessionsOk(site, v') && Extends(v, v')
  {
    hide SessionOk, Evolves;
    forall other | other in v.sessions
      ensures SessionOk(site, v'.sessions[other]) && Evolves(v.sessions[other], v'.sessions[other])
    {
      if other != sid {
        assert SessionOk(site, v.sessions[other]);
        SessionEvolvesItself(site, v.sessions[other]);
      }
    }
  }

  lemma SessionEvolvesItself(site: Site, s: Session)
    requires SessionOk(site, s)
    ensures Evolves(s, s)
  {
    hide Inv, CompletedOk, Evolves;
    EvolvesReflexive(site, s);
  }

  lemma {:induction false} FiledKeeps(site: Site, v: ServiceState, r: Request, sid: Id, t: Session)
    requires ServiceOk(site, v) && sid in v.sessions && r.OperationKey() !in v.operations
    requires SessionOk(site, t) && Evolves(v.sessions[sid], t) && t.version == v.sessions[sid].version + 1
    requires r.op.Approve? && t.mission.Some? ==> t.mission.value.id !in v.missions
    requires r.op.Prepare? && t.proposal.Some? ==> t.proposal.value.id !in v.proposals
    ensures ServiceOk(site, Filed(v, r, sid, t)) && Extends(v, Filed(v, r, sid, t))
  {
    hide SessionOk, Evolves, CommittedFor;
    var v' := Filed(v, r, sid, t);
    SessionStep(site, v, v', sid);
    forall other | other in v'.sessions
      ensures v'.sessions[other].version == 1 + |CommittedFor(v'.operations, other)|
    {
      CommittedForGrows(v.operations, r.OperationKey(), Receipt(r.Payload(), sid), other);
    }
  }

  lemma {:induction false} FailedKeeps(site: Site, v: ServiceState, key: Key, receipt: Receipt, sid: Id, t: Session)
    requires ServiceOk(site, v) && sid in v.sessions && key !in v.operations && receipt.session == sid
    requires SessionOk(site, t) && Evolves(v.sessions[sid], t) && t.version == v.sessions[sid].version
    ensures var v' := v.(sessions := v.sessions[sid := t], pending := v.pending[key := receipt]);
      ServiceOk(site, v') && Extends(v, v')
  {
    hide SessionOk, Evolves, CommittedFor;
    var v' := v.(sessions := v.sessions[sid := t], pending := v.pending[key := receipt]);
    SessionStep(site, v, v', sid);
  }

  /** What a preparation or approval that succeeds files is what the request brought. */
  lemma RanPapers(site: Site, s: Session, id: Id, op: Operation)
    requires Perform(site, s, id, op).1 == Done
    ensures var t := Perform(site, s, id, op).0;
      && (op.Prepare? ==> op.proposed.Some? && t.proposal == op.proposed)
      && (op.Approve? ==> t.mission.Some? && t.mission.value.id == op.missionId)
  {
    hide RouteProof, BindApproval, Plant.Capture, DoStart, DoStop, DoReplan, DoResume, ValidFor;
    match op
    case Prepare(now, planned, proposed) => PreparedPapers(site, s, now, planned, proposed);
    case _ =>
  }

  lemma CommittedPapers(site: Site, s: Session, id: Id, op: Operation)
    requires Attempt(site, s, id, op).1 == Done
    ensures var t := Attempt(site, s, id, op).0;
      && (op.Prepare? ==> op.proposed.Some? && t.proposal == op.proposed)
      && (op.Approve? ==> t.mission.Some? && t.mission.value.id == op.missionId)
  {
    hide Perform;
    RanPapers(site, s.Log(Accepted(op.Name())), id, op);
  }

  lemma PreparedPapers(site: Site, s: Session, now: real, planned: Outcome, proposed: Option<Proposal>)
    requires DoPrepare(site, s, now, planned, proposed).1 == Done
    ensures proposed.Some? && DoPrepare(site, s, now, planned, proposed).0.proposal == proposed
  {
    hide RouteProof, Plant.Capture;
  }

  lemma {:induction false} HandleKeeps(sc: Scenario, v: ServiceState, r: Request)
    requires ServiceOk(sc.site, v) && Admissible(sc, v, Ask(r))
    ensures ServiceOk(sc.site, Handle(sc.site, v, r).0) && Extends(v, Handle(sc.site, v, r).0)
  {
    hide SessionOk, Evolves, Attempt, Possible, Filed, Counted, Referring;
    ExtendsReflexive(sc.site, v);
    if Locate(v, r).Some? {
      var sid := Locate(v, r).value;
      var s := v.sessions[sid];
      assert SessionOk(sc.site, s);
      var key := r.OperationKey();
      if Admitted(v, r, sid) {
        AttemptKeeps(sc.site, s, r.target, r.op);
        var (t, result) := Attempt(sc.site, s, r.target, r.op);
        if result.Done? {
          CommittedPapers(sc.site, s, r.target, r.op);
          FiledKeeps(sc.site, v, r, sid, t);
        } else {
          FailedKeeps(sc.site, v, key, Receipt(r.Payload(), sid), sid, t);
        }
      }
    }
  }

  lemma {:induction false} CreateKeeps(sc: Scenario, v: ServiceState, id: Id, intent: Intent)
    requires ScenarioOk(sc) && ServiceOk(sc.site, v) && id !in v.sessions
    ensures var v' := Apply(sc, v, Create(id, intent)).0;
      ServiceOk(sc.site, v') && Extends(v, v')
  {
    hide Inv, Evolves;
    var v' := Apply(sc, v, Create(id, intent)).0;
    NewSessionOk(sc.site, sc.world, intent);
    ExtendsReflexive(sc.site, v);
    assert CommittedFor(v.operations, id) == {};
  }

  ghost predicate ScenarioOk(sc: Scenario) {
    forall l :: l in sc.world.locations ==> Plant.Aligned(sc.world.locations[l])
  }

  /** Every call keeps the service sound and only adds to it. */
  lemma {:induction false} ApplyKeeps(sc: Scenario, v: ServiceState, c: Call)
    requires ScenarioOk(sc) && ServiceOk(sc.site, v) && Admissible(sc, v, c)
    ensures ServiceOk(sc.site, Apply(sc, v, c).0) && Extends(v, Apply(sc, v, c).0)
  {
    hide ServiceOk, Extends, Handle;
    match c
    case Create(id, intent) => CreateKeeps(sc, v, id, intent);
    case Ask(r) => HandleKeeps(sc, v, r);
  }

  /** So does every run. */
  lemma {:induction false} RunKeeps(sc: Scenario, v: ServiceState, calls: seq<Call>)
    requires ScenarioOk(sc) && ServiceOk(sc.site, v) && Legal(sc, v, calls)
    ensures ServiceOk(sc.site, After(sc, v, calls)) && Extends(v, After(sc, v, calls))
  {
    hide ServiceOk, Extends, Apply, Admissible;
    if calls == [] {
      ServiceExtendsItself(sc.site, v);
    } else {
      var before := calls[..|calls| - 1];
      RunKeeps(sc, v, before);
      ApplyKeeps(sc, After(sc, v, before), calls[|calls| - 1]);
      ExtendsTransitive(v, After(sc, v, before), After(sc, v, calls));
    }
  }

  lemma ServiceExtendsItself(site: Site, v: ServiceState)
    requires ServiceOk(site, v)
    ensures Extends(v, v)
  {
    ExtendsReflexive(site, v);
  }

  lemma EmptyOk(site: Site)
    ensures ServiceOk(site, EMPTY)
  {
  }

  /** A service that some run reaches. */
  ghost predicate Reached(sc: Scenario, calls: seq<Call>, v: ServiceState) {
    ScenarioOk(sc) && Legal(sc, EMPTY, calls) && v == After(sc, EMPTY, calls)
  }

  lemma ReachedOk(sc: Scenario, calls: seq<Call>, v: ServiceState)
    requires Reached(sc, calls, v)
    ensures ServiceOk(sc.site, v)
  {
    hide ServiceOk;
    EmptyOk(sc.site);
    RunKeeps(sc, EMPTY, calls);
  }
}
