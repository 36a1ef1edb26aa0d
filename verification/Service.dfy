/** The mission service around its sessions: indexes, roles, idempotency keys and versions. A request
    names a session, a proposal or a mission, and is admitted, refused or answered from its receipt. */
module Service {
  import opened Domain
  import opened Sessions
  import Plant

  datatype Scenario = Scenario(site: Site, world: Plant.World)

  /** What a request's fingerprint covers. */
  datatype Payload =
    | Bare(target: Id)
    | Signed(target: Id, actor: Id, role: string)
    | Detailed(target: Id, actor: Id, role: string, detail: string)

  datatype Receipt = Receipt(payload: Payload, session: Id)

  datatype Key = Key(name: OperationName, key: Id)

  /** `detail` is the reason of a rejection or an override, or the node a replan names as blocked. */
  datatype Request = Request(op: Operation, target: Id, actor: Id, role: string, detail: string, key: Id,
    expected: nat) {
    function OperationKey(): Key { Key(op.Name(), key) }

    function Payload(): Payload {
      match op
      case Prepare(_, _, _) => Bare(target)
      case Approve(_, _, _, _, _) => Signed(target, actor, role)
      case Start(_) => Signed(target, actor, role)
      case Resume(_) => Signed(target, actor, role)
      case Stop(trigger, _) => Detailed(target, actor, role, trigger)
      case _ => Detailed(target, actor, role, detail)
    }
  }

  datatype ServiceState = ServiceState(
    sessions: map<Id, Session>, proposals: map<Id, Id>, missions: map<Id, Id>,
    operations: map<Key, Receipt>, pending: map<Key, Receipt>)

  const EMPTY := ServiceState(map[], map[], map[], map[], map[])

  datatype Call = Create(session: Id, intent: Intent) | Ask(request: Request)

  datatype Reply =
    | Created(session: Id)
    | Unknown | Forbidden | Conflict
    | Replayed(session: Id)
    | Failed(session: Id, why: Why)
    | Committed(session: Id, name: OperationName)
  {
    predicate Refuses() { Unknown? || Forbidden? || Conflict? || Replayed? }
  }

  predicate MayCall(role: string, name: OperationName) {
    match name
    case PREPARE => true
    case APPROVE => role in {"approver", "admin"}
    case REJECT => role in {"approver", "admin"}
    case START => role in {"executor", "admin"}
    case STOP => role in {"safety", "executor", "admin"}
    case REPLAN => role in {"operator", "executor", "admin"}
    case RESUME => role in {"executor", "admin"}
    case OVERRIDE => role in {"safety", "admin"}
  }

  /** Nobody but an administrator may both approve a mission and set it in motion. */
  lemma ApproversDoNotExecute(role: string)
    requires MayCall(role, APPROVE) && (MayCall(role, START) || MayCall(role, RESUME))
    ensures role == "admin"
  {
  }

  function Lookup(index: map<Id, Id>, id: Id): Option<Id> { if id in index then Some(index[id]) else None }

  function Find(v: ServiceState, r: Request): Option<Id> {
    match r.op.Name()
    case PREPARE => Some(r.target)
    case APPROVE => Lookup(v.proposals, r.target)
    case REJECT => Lookup(v.proposals, r.target)
    case _ => Lookup(v.missions, r.target)
  }

  /** The session a request is about. */
  function Locate(v: ServiceState, r: Request): Option<Id> {
    var found := Find(v, r);
    if found.Some? && found.value in v.sessions then found else None
  }

  // ---- One operation on one session ----

  /** The commit: the version moves on, and the session's copy of the mission with it. */
  function Finish(s: Session, name: OperationName): Session {
    var version := s.version + 1;
    var mission := if s.mission.Some? then Some(s.mission.value.(version := version)) else None;
    s.(version := version, mission := mission).Log(Span.Committed(name, version))
  }

  /** An accepted operation: it commits when nothing raises, and otherwise leaves the session as it is. */
  ghost function Attempt(site: Site, s: Session, id: Id, op: Operation): (Session, Result) {
    var (t, result) := Perform(site, s.Log(Accepted(op.Name())), id, op);
    if result.Done? then (Finish(t, op.Name()), Done) else (t, result)
  }

  // ---- Requests ----

  /** A commit files the receipt and, for a preparation or an approval, the new identifier. */
  function Filed(v: ServiceState, r: Request, sid: Id, t: Session): ServiceState {
    var key := r.OperationKey();
    v.(
      sessions := v.sessions[sid := t],
      proposals := if r.op.Prepare? && t.proposal.Some? then v.proposals[t.proposal.value.id := sid] else v.proposals,
      missions := if r.op.Approve? && t.mission.Some? then v.missions[t.mission.value.id := sid] else v.missions,
      operations := v.operations[key := Receipt(r.Payload(), sid)],
      pending := v.pending - {key})
  }

  /** The request is accepted for session `sid`: its role may call, its key is not committed, and it saw
      the session's current version. */
  predicate Admitted(v: ServiceState, r: Request, sid: Id) {
    && Locate(v, r) == Some(sid) && MayCall(r.role, r.op.Name())
    && r.OperationKey() !in v.operations && r.expected == v.sessions[sid].version
  }

  ghost function Handle(site: Site, v: ServiceState, r: Request): (ServiceState, Reply) {
    match Locate(v, r)
    case None => (v, Unknown)
    case Some(sid) =>
      var s := v.sessions[sid];
      var key := r.OperationKey();
      var receipt := Receipt(r.Payload(), sid);
      if !MayCall(r.role, key.name) then (v, Forbidden)
      else if key in v.operations then
        if v.operations[key] == receipt then (v, Replayed(sid)) else (v, Conflict)
      else if r.expected != s.version then (v, Conflict)
      else
        var (t, result) := Attempt(site, s, r.target, r.op);
        match result
        case Done => (Filed(v, r, sid, t), Reply.Committed(sid, key.name))
        case Raised(why) =>
          (v.(sessions := v.sessions[sid := t], pending := v.pending[key := receipt]), Failed(sid, why))
  }

  ghost function Apply(sc: Scenario, v: ServiceState, c: Call): (ServiceState, Reply) {
    match c
    case Create(id, intent) => (v.(sessions := v.sessions[id := New(sc.world, intent)]), Created(id))
    case Ask(r) => Handle(sc.site, v, r)
  }

  /** New identifiers are new, and the planner outcome is one the planner can return. */
  ghost predicate Admissible(sc: Scenario, v: ServiceState, c: Call) {
    match c
    case Create(id, _) => id !in v.sessions
    case Ask(r) =>
      && (r.op.Approve? ==> r.op.actor == r.actor && r.op.missionId !in v.missions)
      && (r.op.Prepare? && r.op.proposed.Some? ==> r.op.proposed.value.id !in v.proposals)
      && (forall sid :: Admitted(v, r, sid) ==> Possible(sc.site, v.sessions[sid], r.op))
  }

  // ---- Runs ----

  ghost function After(sc: Scenario, v: ServiceState, calls: seq<Call>): ServiceState {
    if calls == [] then v
    else Apply(sc, After(sc, v, calls[..|calls| - 1]), calls[|calls| - 1]).0
  }

  ghost predicate Legal(sc: Scenario, v: ServiceState, calls: seq<Call>) {
    calls != [] ==>
      && Legal(sc, v, calls[..|calls| - 1])
      && Admissible(sc, After(sc, v, calls[..|calls| - 1]), calls[|calls| - 1])
  }
}
