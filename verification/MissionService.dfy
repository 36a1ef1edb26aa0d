/** The mission service as an object: its sessions, indexes and operation records, updated in place by
    one method for each request. Each method is proved to do what `Service.Handle` gives, so that every
    theorem about runs of the service is one about sequences of these calls; and each keeps the service
    sound. Fresh identifiers, clock readings and the provider's answers are parameters. */
module MissionServices {
  import opened Domain
  import opened Workflow
  import opened Planning
  import opened Sessions
  import opened SessionInvariant
  import opened MissionSessions
  import opened Service
  import opened ServiceRuns
  import Plant

  /** The records when `r` has been accepted for session `sid`. */
  function Began(v: ServiceState, r: Request, sid: Id): ServiceState
    requires sid in v.sessions
  {
    v.(sessions := v.sessions[sid := v.sessions[sid].Log(Accepted(r.op.Name()))],
       pending := v.pending[r.OperationKey() := Receipt(r.Payload(), sid)])
  }

  lemma AdmittedCall(site: Site, v: ServiceState, r: Request, sid: Id)
    requires Admitted(v, r, sid)
    ensures var (t, result) := Perform(site, v.sessions[sid].Log(Accepted(r.op.Name())), r.target, r.op);
      Handle(site, v, r) ==
        if result.Done? then (Filed(v, r, sid, Finish(t, r.op.Name())), Reply.Committed(sid, r.op.Name()))
        else (v.(sessions := v.sessions[sid := t], pending := v.pending[r.OperationKey() := Receipt(r.Payload(), sid)]),
              Failed(sid, result.why))
  {
    hide Perform, Filed;
  }

  /** A request that is refused, with the answer it gets. */
  lemma RefusedCall(site: Site, v: ServiceState, r: Request)
    ensures var refused := (v, RefusalOf(v, r));
      (forall sid :: !Admitted(v, r, sid)) ==> Handle(site, v, r) == refused
  {
    hide Attempt, Filed;
    if Locate(v, r).Some? && forall sid :: !Admitted(v, r, sid) {
      assert !Admitted(v, r, Locate(v, r).value);
    }
  }

  function RefusalOf(v: ServiceState, r: Request): Reply {
    match Locate(v, r)
    case None => Unknown
    case Some(sid) =>
      if !MayCall(r.role, r.op.Name()) then Forbidden
      else if r.OperationKey() in v.operations && v.operations[r.OperationKey()] == Receipt(r.Payload(), sid) then
        Replayed(sid)
      else Conflict
  }

  /** The records when an operation of `r` has run on session `sid` and left it as `t`, before the
      commit. Only a committed preparation or approval has filed a new identifier. */
  ghost function Ran(v: ServiceState, r: Request, sid: Id, t: Session, result: Result): ServiceState {
    var ran := v.(sessions := v.sessions[sid := t],
      pending := v.pending[r.OperationKey() := Receipt(r.Payload(), sid)]);
    if result.Done? && r.op.Prepare? && t.proposal.Some? then ran.(proposals := v.proposals[t.proposal.value.id := sid])
    else if result.Done? && r.op.Approve? && t.mission.Some? then
      ran.(missions := v.missions[t.mission.value.id := sid])
    else ran
  }

  lemma RanAndRaised(v: ServiceState, r: Request, sid: Id, t: Session, why: Why)
    ensures Ran(v, r, sid, t, Raised(why))
         == v.(sessions := v.sessions[sid := t], pending := v.pending[r.OperationKey() := Receipt(r.Payload(), sid)])
  {
  }

  lemma RanToFiled(v: ServiceState, r: Request, sid: Id, t: Session)
    ensures var ran := Ran(v, r, sid, t, Done);
      var key := r.OperationKey();
      ran.(sessions := ran.sessions[sid := Finish(t, r.op.Name())],
           operations := ran.operations[key := ran.pending[key]], pending := ran.pending - {key})
      == Filed(v, r, sid, Finish(t, r.op.Name()))
  {
    FinishKeepsPapers(t, r.op.Name());
    hide Finish;
    var key := r.OperationKey();
    assert v.sessions[sid := t][sid := Finish(t, r.op.Name())] == v.sessions[sid := Finish(t, r.op.Name())];
    assert v.pending[key := Receipt(r.Payload(), sid)] - {key} == v.pending - {key};
  }

  lemma FinishKeepsPapers(t: Session, name: OperationName)
    ensures Finish(t, name).proposal == t.proposal && (Finish(t, name).mission.Some? <==> t.mission.Some?)
    ensures t.mission.Some? ==> Finish(t, name).mission.value.id == t.mission.value.id
  {
  }

  /** The request as the service decided it. */
  function WithOutcome(r: Request, planned: Outcome): Request { r.(op := Decided(r.op, planned)) }

  lemma SameRequest(v: ServiceState, r: Request, planned: Outcome)
    ensures var r' := WithOutcome(r, planned);
      && r'.OperationKey() == r.OperationKey() && r'.Payload() == r.Payload() && r'.op.Name() == r.op.Name()
      && Find(v, r') == Find(v, r) && Locate(v, r') == Locate(v, r) && RefusalOf(v, r') == RefusalOf(v, r)
      && (forall sid :: Admitted(v, r', sid) <==> Admitted(v, r, sid))
  {
  }

  lemma SameRan(v: ServiceState, r: Request, planned: Outcome, sid: Id, t: Session, result: Result)
    ensures Ran(v, WithOutcome(r, planned), sid, t, result) == Ran(v, r, sid, t, result)
  {
    SameRequest(v, r, planned);
  }

  /** The identifiers that a request brings are new. */
  predicate BringsNewIds(r: Request, proposals: map<Id, Id>, missions: map<Id, Id>) {
    && (r.op.Approve? ==> r.op.actor == r.actor && r.op.missionId !in missions)
    && (r.op.Prepare? && r.op.proposed.Some? ==> r.op.proposed.value.id !in proposals)
  }

  lemma DecidedIsAdmissible(sc: Scenario, v: ServiceState, r: Request, planned: Outcome)
    requires BringsNewIds(r, v.proposals, v.missions)
    requires forall sid :: Admitted(v, r, sid) ==> Possible(sc.site, v.sessions[sid], Decided(r.op, planned))
    ensures Admissible(sc, v, Ask(WithOutcome(r, planned)))
  {
    hide Possible;
    SameRequest(v, r, planned);
  }

  lemma OnlyOneAdmitted(v: ServiceState, r: Request, sid: Id)
    requires Admitted(v, r, sid)
    ensures sid in v.sessions && forall other :: Admitted(v, r, other) ==> other == sid
  {
  }

  class MissionService {
    const scenario: Scenario
    var sessions: map<Id, MissionSession>
    var proposalIndex: map<Id, Id>
    var missionIndex: map<Id, Id>
    var operations: map<Key, Receipt>
    var pendingOperations: map<Key, Receipt>
    ghost var Repr: set<object>

    /** No two sessions share an object. */
    ghost predicate Separate()
      reads this
    {
      && (forall a :: a in sessions ==>
            sessions[a].Valid() && sessions[a].world.site == scenario.site && sessions[a].Objects() <= Repr)
      && (forall a, b :: a in sessions && b in sessions && a != b ==> sessions[a].Objects() !! sessions[b].Objects())
    }

    ghost function View(): ServiceState
      requires Separate()
      reads this, Repr
    {
      ServiceState(map a | a in sessions :: sessions[a].View(), proposalIndex, missionIndex, operations,
        pendingOperations)
    }

    ghost predicate Valid()
      reads this, Repr
    {
      && this !in Repr && Separate()
      && ScenarioOk(scenario) && scenario.world.obstacles == map[] && scenario.world.snapshots == 0
      && ServiceOk(scenario.site, View())
    }

    constructor (scenario: Scenario)
      requires ScenarioOk(scenario) && scenario.world.obstacles == map[] && scenario.world.snapshots == 0
      ensures Valid() && this.scenario == scenario && View() == EMPTY
    {
      this.scenario := scenario;
      sessions, proposalIndex, missionIndex, operations, pendingOperations := map[], map[], map[], map[], map[];
      Repr := {};
      new;
      EmptyOk(scenario.site);
    }

    /** The effect on the view of a change to the objects of one session. */
    twostate lemma OneSessionChanged(sid: Id)
      requires old(Separate()) && Separate() && sessions == old(sessions) && sid in sessions
      requires forall a :: a in sessions && a != sid ==> unchanged(sessions[a].Objects())
      ensures View().sessions == old(View()).sessions[sid := sessions[sid].View()]
    {
      forall a | a in sessions && a != sid ensures sessions[a].View() == old(sessions[a].View()) {
        assert unchanged(sessions[a].Objects());
        assert sessions[a].world in sessions[a].Objects() && sessions[a].adapter in sessions[a].Objects();
        assert sessions[a].state in sessions[a].Objects() && sessions[a] in sessions[a].Objects();
      }
    }

    method Register(id: Id, session: MissionSession)
      requires Separate() && this !in Repr && id !in sessions
      requires session.Valid() && session.world.site == scenario.site && session.Objects() !! Repr
      modifies this`sessions, this`Repr
      ensures Separate() && this !in Repr && Repr == old(Repr) + session.Objects()
      ensures View() == old(View()).(sessions := old(View()).sessions[id := session.View()])
    {
      hide MissionSession.View;
      sessions := sessions[id := session];
      Repr := Repr + session.Objects();
    }

    method CreateIntent(id: Id, intent: Intent) returns (reply: Reply)
      requires Valid() && id !in sessions
      modifies this
      ensures Valid() && fresh(Repr - old(Repr))
      ensures (View(), reply) == Apply(scenario, old(View()), Create(id, intent))
    {
      hide ServiceOk, MissionSession.View, Extends, New, ScenarioOk, Separate;
      ghost var before := View();
      var w := scenario.world;
      var session := new MissionSession(scenario.site, w.agvs, w.locations, w.pallets, intent);
      Register(id, session);
      CreateKeeps(scenario, before, id, intent);
      return Created(id);
    }

    /** The session is looked up, the role and the idempotency key are checked, and the operation is
        recorded as accepted and pending, unless something refuses it. */
    method BeginOperation(found: Option<Id>, role: string, key: Key, payload: Payload, expected: nat, ghost r: Request)
      returns (sid: Id, refusal: Option<Reply>)
      requires Separate() && this !in Repr
      requires found == Find(View(), r) && role == r.role && key == r.OperationKey() && payload == r.Payload() &&
        expected == r.expected
      modifies this`pendingOperations, Repr
      ensures Separate()
      ensures refusal.Some? ==>
        (View(), refusal.value) == (old(View()), RefusalOf(old(View()), r)) && forall a :: !Admitted(old(View()), r, a)
      ensures refusal.None? ==> Admitted(old(View()), r, sid) && View() == Began(old(View()), r, sid)
    {
      hide MissionSession.View;
      sid := if found.Some? then found.value else 0;
      if found.None? || sid !in sessions {
        return sid, Some(Unknown);
      }
      if !MayCall(role, key.name) {
        return sid, Some(Forbidden);
      }
      if key in operations {
        return sid, Some(if operations[key] == Receipt(payload, sid) then Replayed(sid) else Conflict);
      }
      assert View().sessions[sid].version == sessions[sid].version by {
        SessionFields(sid);
      }
      if expected != sessions[sid].version {
        return sid, Some(Conflict);
      }
      sessions[sid].Record(Accepted(key.name));
      pendingOperations := pendingOperations[key := Receipt(payload, sid)];
      OneSessionChanged(sid);
      return sid, None;
    }

    lemma SessionFields(sid: Id)
      requires Separate() && sid in sessions
      ensures var s := sessions[sid].View();
        View().sessions[sid] == s && s.version == sessions[sid].version
        && s.proposal == sessions[sid].proposal && s.mission == sessions[sid].mission
    {
    }

    method FinishOperation(sid: Id, key: Key)
      requires Separate() && sid in sessions && key in pendingOperations
      modifies this`operations, this`pendingOperations, sessions[sid]
      ensures Separate()
      ensures var v := old(View());
        View() == v.(sessions := v.sessions[sid := Finish(v.sessions[sid], key.name)],
                     operations := v.operations[key := v.pending[key]], pending := v.pending - {key})
    {
      hide MissionSession.View;
      sessions[sid].Commit(key.name);
      operations := operations[key := pendingOperations[key]];
      pendingOperations := pendingOperations - {key};
      OneSessionChanged(sid);
    }

    /** The end of every request: an error leaves what it left, success is committed. */
    method Settle(sid: Id, key: Key, result: Result, ghost v: ServiceState, ghost r: Request, ghost t: Session)
      returns (reply: Reply)
      requires Separate() && this !in Repr && sid in sessions && key == r.OperationKey() && Admitted(v, r, sid)
      requires (t, result) == Perform(scenario.site, v.sessions[sid].Log(Accepted(r.op.Name())), r.target, r.op)
      requires View() == Ran(v, r, sid, t, result)
      modifies this`operations, this`pendingOperations, sessions[sid]
      ensures Separate() && (View(), reply) == Handle(scenario.site, v, r)
    {
      hide MissionSession.View, Perform, Filed, Handle;
      AdmittedCall(scenario.site, v, r, sid);
      if result.Raised? {
        return Failed(sid, result.why);
      }
      RanToFiled(v, r, sid, t);
      FinishOperation(sid, key);
      return Reply.Committed(sid, key.name);
    }

    /** The index entry of a preparation or an approval that succeeded. */
    method Index(sid: Id, op: Operation, ghost v: ServiceState, ghost r: Request, ghost t: Session)
      requires Separate() && this !in Repr && sid in sessions && op == r.op && t == sessions[sid].View()
      requires View() == v.(sessions := v.sessions[sid := t],
        pending := v.pending[r.OperationKey() := Receipt(r.Payload(), sid)])
      modifies this`proposalIndex, this`missionIndex
      ensures Separate() && View() == Ran(v, r, sid, t, Done)
    {
      hide MissionSession.View;
      SessionFields(sid);
      if op.Prepare? && sessions[sid].proposal.Some? {
        proposalIndex := proposalIndex[sessions[sid].proposal.value.id := sid];
      }
      if op.Approve? && sessions[sid].mission.Some? {
        missionIndex := missionIndex[sessions[sid].mission.value.id := sid];
      }
    }

    /** The operation of an accepted request runs on the objects of its session. */
    method RunOn(sid: Id, r: Request, ghost v: ServiceState) returns (result: Result, ghost planned: Outcome)
      requires Separate() && this !in Repr && sid in sessions
      requires ServiceOk(scenario.site, v) && Admitted(v, r, sid) && View() == Began(v, r, sid)
      modifies sessions[sid].Objects()
      ensures Possible(scenario.site, v.sessions[sid], Decided(r.op, planned))
      ensures (sessions[sid].View(), result)
           == Perform(scenario.site, v.sessions[sid].Log(Accepted(r.op.Name())), r.target, Decided(r.op, planned))
      ensures View() == v.(sessions := v.sessions[sid := sessions[sid].View()],
        pending := v.pending[r.OperationKey() := Receipt(r.Payload(), sid)])
    {
      hide ServiceOk, MissionSession.View, Perform, Possible, Decided, Admitted;
      OnlyOneAdmitted(v, r, sid);
      result, planned := sessions[sid].Run(r.target, r.op);
      OneSessionChanged(sid);
      assert old(View()).sessions[sid] == old(sessions[sid].View());
      SamePossible(scenario.site, old(sessions[sid].View()), v.sessions[sid], Decided(r.op, planned));
    }

    /** What follows once a request is accepted. */
    method Carry(sid: Id, r: Request, ghost v: ServiceState) returns (reply: Reply, ghost planned: Outcome)
      requires Separate() && this !in Repr && sid in sessions
      requires ServiceOk(scenario.site, v) && Admitted(v, r, sid) && View() == Began(v, r, sid)
      modifies this`proposalIndex, this`missionIndex, this`operations, this`pendingOperations, sessions[sid].Objects()
      ensures Separate() && Possible(scenario.site, v.sessions[sid], Decided(r.op, planned))
      ensures (View(), reply) == Handle(scenario.site, v, WithOutcome(r, planned))
    {
      hide ServiceOk, MissionSession.View, Handle, Perform, Possible, Decided, RefusalOf, Admitted, Ran;
      OnlyOneAdmitted(v, r, sid);
      var result;
      result, planned := RunOn(sid, r, v);
      ghost var t := sessions[sid].View();
      SameRequest(v, r, planned);
      SameRan(v, r, planned, sid, t, result);
      if result.Done? {
        Index(sid, r.op, v, r, t);
      } else {
        RanAndRaised(v, r, sid, t, result.why);
      }
      reply := Settle(sid, r.OperationKey(), result, v, WithOutcome(r, planned), t);
    }

    /** Every request runs in this frame. It changes the service as `Handle` says for the planner outcome
        found, and leaves it sound. */
    method Serve(r: Request) returns (reply: Reply, ghost planned: Outcome)
      requires Valid()
      requires BringsNewIds(r, proposalIndex, missionIndex)
      modifies this, Repr
      ensures Valid() && Repr == old(Repr)
      ensures Admissible(scenario, old(View()), Ask(WithOutcome(r, planned)))
      ensures (View(), reply) == Handle(scenario.site, old(View()), WithOutcome(r, planned))
    {
      hide ServiceOk, MissionSession.View, Handle, Perform, Possible, Extends, ScenarioOk, RefusalOf, Admitted,
        Admissible, BringsNewIds;
      planned := NoFeasiblePlan;
      ghost var v := View();
      var found := match r.op.Name()
        case PREPARE => Some(r.target)
        case APPROVE => Lookup(proposalIndex, r.target)
        case REJECT => Lookup(proposalIndex, r.target)
        case _ => Lookup(missionIndex, r.target);
      var sid, refusal := BeginOperation(found, r.role, r.OperationKey(), r.Payload(), r.expected, r);
      if refusal.Some? {
        SameRequest(v, r, planned);
        DecidedIsAdmissible(scenario, v, r, planned);
        RefusedCall(scenario.site, v, WithOutcome(r, planned));
        return refusal.value, planned;
      }
      reply, planned := Carry(sid, r, v);
      OnlyOneAdmitted(v, r, sid);
      DecidedIsAdmissible(scenario, v, r, planned);
      HandleKeeps(scenario, v, WithOutcome(r, planned));
    }
  }
}
