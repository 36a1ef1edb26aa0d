/** The data types of domain.py, with their validators.

    Identifiers are integers, ordered as the program orders its strings; times are seconds and all
    quantities are exact reals. Snapshots are keyed by identifier, as the reference world builds them. */
module Domain {

  datatype Option<+T> = None | Some(value: T)

  type Id = int

  datatype MissionStatus =
    | INTENT | NEEDS_INPUT | OBSERVED | PLANNED | PROPOSED | VERIFIED | APPROVED | EXECUTING
    | BLOCKED | SAFE_STOP | REPLANNING | COMPLETED | REJECTED | FAILED | FAILED_SAFE

  datatype Intent = Intent(pallet: Id, source: Id, destination: Id, requestedAgv: Option<Id>, constraints: seq<string>)

  /** What a goal hash covers: the constraints count as a sorted list, the requested AGV not at all.
      Digests are kept as the content they digest. */
  datatype Goal = Goal(pallet: Id, source: Id, destination: Id, constraints: multiset<string>)

  function GoalOf(intent: Intent): Goal {
    Goal(intent.pallet, intent.source, intent.destination, multiset(intent.constraints))
  }

  /** Two intents have one goal exactly when they move the same pallet between the same places under the
      same constraints, listed in any order; which AGV they ask for makes no difference. */
  lemma {:induction false} SameGoal(a: Intent, b: Intent)
    ensures GoalOf(a) == GoalOf(b) <==>
      && a.pallet == b.pallet && a.source == b.source && a.destination == b.destination
      && forall c :: multiset(a.constraints)[c] == multiset(b.constraints)[c]
  {
    if forall c :: multiset(a.constraints)[c] == multiset(b.constraints)[c] {
      assert multiset(a.constraints) == multiset(b.constraints);
    }
  }

  datatype MapNode = MapNode(x: real, y: real, zone: string, vehicleTypes: set<string>)

  datatype RawEdge = MapEdge(fromNode: Id, toNode: Id, length: real, speed: real, group: Id, bidirectional: bool)

  type Edge = e: RawEdge | e.length > 0.0 && e.speed > 0.0 witness MapEdge(0, 0, 1.0, 1.0, 0, true)

  /** The edge can be driven from `a` to `b`. */
  predicate Joins(e: Edge, a: Id, b: Id) {
    (e.fromNode == a && e.toNode == b) || (e.bidirectional && e.toNode == a && e.fromNode == b)
  }

  datatype Pose = Pose(node: Id, x: real, y: real)

  datatype AgvStatus = AgvIdle | AgvCharging | AgvExecuting | AgvStopped | AgvOffline

  datatype Agv = Agv(node: Id, status: AgvStatus, battery: real, carriesPallets: bool, mission: Option<Id>,
    pose: Option<Pose>)

  datatype Location = Location(node: Id, reachable: bool, occupancy: Option<Id>, pallet: Option<Id>)

  /** The validator that runs when a location is built and again after every assignment to one of its
      fields: a missing half is filled in from the other, and two different loads are an error. */
  function Align(l: Location): Option<Location> {
    if l.occupancy.Some? && l.pallet.None? then Some(l.(pallet := l.occupancy))
    else if l.pallet.Some? && l.occupancy.None? then Some(l.(occupancy := l.pallet))
    else if l.pallet != l.occupancy then None
    else Some(l)
  }

  /** It accepts exactly locations whose two records agree where both are there, and leaves both showing
      the load that either showed. */
  lemma AlignMeans(l: Location)
    ensures Align(l).Some? <==> !(l.occupancy.Some? && l.pallet.Some? && l.occupancy.value != l.pallet.value)
    ensures Align(l).Some? ==>
      var aligned := Align(l).value;
      && aligned.node == l.node && aligned.reachable == l.reachable && aligned.pallet == aligned.occupancy
      && (forall load :: aligned.occupancy == Some(load) <==> l.occupancy == Some(load) || l.pallet == Some(load))
  {
  }

  datatype Obstacle = Obstacle(node: Id, confidence: real, lastSeen: real, ttl: real, observations: nat)

  datatype RawReservation = Reservation(group: Id, heldBy: Id, startsAt: real, endsAt: real)

  type Reservation = r: RawReservation | r.startsAt < r.endsAt witness Reservation(0, 0, 0.0, 1.0)

  datatype Snapshot = Snapshot(
    id: nat, capturedAt: real, mapVersion: Id, nodes: map<Id, MapNode>, edges: seq<Edge>,
    agvs: map<Id, Agv>, locations: map<Id, Location>, pallets: map<Id, Id>, obstacles: map<Id, Obstacle>,
    reservedGroups: map<Id, Id>, reservations: seq<Reservation>, waitFor: map<Id, Id>)

  /** The digest that names a route. */
  datatype RouteVersion = RouteVersion(mapVersion: Id, agv: Id, nodes: seq<Id>, groups: seq<Id>, distance: real)

  datatype RawPlan = RoutePlan(
    version: RouteVersion, mapVersion: Id, agv: Id, nodes: seq<Id>, groups: seq<Id>,
    distance: real, energy: real, duration: real, candidates: nat)

  /** A route plan as its validator admits it. */
  predicate PlanIsValid(p: RawPlan) {
    |p.nodes| >= 2 && p.distance > 0.0 && p.energy >= 0.0 && p.duration > 0.0 && p.candidates >= 1
  }

  type Plan = p: RawPlan | PlanIsValid(p)
    witness RoutePlan(RouteVersion(0, 0, [], [], 0.0), 0, 0, [0, 1], [0], 1.0, 0.0, 1.0, 1)

  datatype Proposal = Proposal(
    id: Id, goal: Intent, agv: Id, route: seq<Id>, routeVersion: RouteVersion, mapVersion: Id, snapshotId: nat,
    hash: Id)

  /** `TransportProposal.issue`; the hash covers everything, so it is passed in as one more identifier. */
  function IssueProposal(id: Id, intent: Intent, plan: Plan, snapshotId: nat, hash: Id): Proposal {
    Proposal(id, intent, plan.agv, plan.nodes, plan.version, plan.mapVersion, snapshotId, hash)
  }

  datatype CheckName =
    | EntityValidity | MapConsistency | BatteryReserve | VehicleType | ForbiddenZone | CollisionFree
    | ReservationAvailability | Deadlock | DestinationOccupancy | ProposalSemantics | ApprovalIntegrity

  datatype Check = Check(name: CheckName, passed: bool)

  datatype Proof = Proof(proposalId: Id, routeVersion: RouteVersion, snapshotId: nat, checks: seq<Check>, passed: bool)

  predicate AllPassed(checks: seq<Check>) { forall c :: c in checks ==> c.passed }

  /** `SafetyProof.issue`. */
  function IssueProof(proposalId: Id, routeVersion: RouteVersion, snapshotId: nat, checks: seq<Check>): Proof {
    Proof(proposalId, routeVersion, snapshotId, checks, AllPassed(checks))
  }

  datatype ApprovalContent = ApprovalContent(
    tokenId: Id, proposalHash: Id, goal: Goal, actor: Id, issuedAt: real, expiresAt: real)

  /** An approval and the digest of its content taken when it was issued. */
  datatype Approval = Approval(content: ApprovalContent, digest: ApprovalContent)

  const APPROVAL_LIFETIME := 900.0

  /** `ApprovalToken.issue`, with its default lifetime of fifteen minutes. */
  function IssueApproval(tokenId: Id, proposalHash: Id, goal: Goal, actor: Id, now: real): Approval {
    var content := ApprovalContent(tokenId, proposalHash, goal, actor, now, now + APPROVAL_LIFETIME);
    Approval(content, content)
  }

  /** `ApprovalToken.valid_for`. */
  predicate ValidFor(a: Approval, p: Proposal, at: real) {
    && a.digest == a.content
    && a.content.proposalHash == p.hash
    && a.content.goal == GoalOf(p.goal)
    && a.content.issuedAt <= at < a.content.expiresAt
  }

  /** An issued approval authorises exactly the proposals with its hash and goal, for fifteen minutes;
      changing any field of it afterwards invalidates it altogether. */
  lemma ApprovalBinds(tokenId: Id, proposalHash: Id, goal: Goal, actor: Id, now: real, altered: ApprovalContent,
    p: Proposal, at: real)
    ensures var a := IssueApproval(tokenId, proposalHash, goal, actor, now);
      && (ValidFor(a, p, at) <==>
           p.hash == proposalHash && GoalOf(p.goal) == goal && now <= at < now + 900.0)
      && a.content.actor == actor && a.content.tokenId == tokenId
      && (ValidFor(a.(content := altered), p, at) ==> altered == a.content)
  {
  }
}
