/** The safety engine of safety.py, which judges a plan by rules of its own. */
module Safety {
  import opened Domain

  const MINIMUM_BATTERY_RESERVE := 20.0
  const MINIMUM_OBSTACLE_CONFIDENCE := 0.5
  const FORBIDDEN_ZONES := {"forbidden", "human-only"}

  // ---- Obstacles ----

  predicate ActiveObstacle(o: Obstacle, at: real) {
    && o.lastSeen + o.ttl >= at
    && (o.confidence >= 0.9 || (o.confidence >= MINIMUM_OBSTACLE_CONFIDENCE && o.observations >= 2))
  }

  function ActiveNodes(s: Snapshot): set<Id> {
    set o | o in s.obstacles && ActiveObstacle(s.obstacles[o], s.capturedAt) :: s.obstacles[o].node
  }

  // ---- Time slots ----

  /** The route's duration divided evenly over its reservation groups. */
  function SlotLength(plan: Plan): (d: real) {
    plan.duration / (if |plan.groups| > 0 then |plan.groups| as real else 1.0)
  }

  function SlotStart(s: Snapshot, plan: Plan, i: int): real {
    s.capturedAt + i as real * SlotLength(plan)
  }

  lemma SlotEnd(s: Snapshot, plan: Plan, i: int)
    ensures SlotLength(plan) > 0.0
    ensures SlotStart(s, plan, i + 1) == SlotStart(s, plan, i) + SlotLength(plan)
  {
    DivisionPositive(plan.duration, if |plan.groups| > 0 then |plan.groups| as real else 1.0);
    Distribute(i as real, SlotLength(plan));
    assert (i + 1) as real == i as real + 1.0;
  }

  lemma DivisionPositive(a: real, b: real)
    requires a > 0.0 && b > 0.0
    ensures a / b > 0.0 && b * (a / b) == a
  {
  }

  lemma Distribute(i: real, d: real)
    ensures (i + 1.0) * d == i * d + d
  {
  }

  /** The slots tile the route's estimated duration: every instant of it lies in exactly one. */
  lemma {:induction false} SlotsTile(s: Snapshot, plan: Plan, t: real) returns (slot: nat)
    requires |plan.groups| > 0 && s.capturedAt <= t < s.capturedAt + plan.duration
    ensures slot < |plan.groups| && SlotStart(s, plan, slot) <= t < SlotStart(s, plan, slot + 1)
    ensures forall i: nat :: i < |plan.groups| && SlotStart(s, plan, i) <= t < SlotStart(s, plan, i + 1) ==> i == slot
    ensures SlotStart(s, plan, 0) == s.capturedAt
    ensures SlotStart(s, plan, |plan.groups|) == s.capturedAt + plan.duration
  {
    DivisionPositive(plan.duration, |plan.groups| as real);
    slot := 0;
    while SlotStart(s, plan, slot + 1) <= t
      invariant slot < |plan.groups| && SlotStart(s, plan, slot) <= t
      decreases |plan.groups| - slot
    {
      if slot + 1 == |plan.groups| {
        assert false;
      }
      slot := slot + 1;
    }
    forall i: nat | i < |plan.groups| && SlotStart(s, plan, i) <= t < SlotStart(s, plan, i + 1)
      ensures i == slot
    {
      if i < slot {
        SlotsAscend(s, plan, i + 1, slot);
      } else if slot < i {
        SlotsAscend(s, plan, slot + 1, i);
      }
    }
  }

  lemma {:induction false} SlotsAscend(s: Snapshot, plan: Plan, i: nat, j: nat)
    requires i <= j
    ensures SlotStart(s, plan, i) <= SlotStart(s, plan, j)
    decreases j
  {
    if i < j {
      SlotsAscend(s, plan, i, j - 1);
      SlotEnd(s, plan, j - 1);
    }
  }

  /** The test the engine applies to slot `i` and one reservation. */
  predicate Conflict(s: Snapshot, plan: Plan, i: nat, r: Reservation)
    requires i < |plan.groups|
  {
    var startsAt := SlotStart(s, plan, i);
    var endsAt := startsAt + SlotLength(plan);
    && r.group == plan.groups[i] && r.heldBy != plan.agv
    && startsAt < r.endsAt && endsAt > r.startsAt
  }

  ghost predicate NoTemporalConflict(s: Snapshot, plan: Plan) {
    forall i, r :: 0 <= i < |plan.groups| && r in s.reservations ==> !Conflict(s, plan, i, r)
  }

  method TemporalConflicts(s: Snapshot, plan: Plan) returns (conflicts: seq<(nat, Reservation)>)
    ensures forall c :: c in conflicts ==>
      c.0 < |plan.groups| && c.1 in s.reservations && Conflict(s, plan, c.0, c.1)
    ensures forall i, r :: 0 <= i < |plan.groups| && r in s.reservations && Conflict(s, plan, i, r) ==>
      (i, r) in conflicts
  {
    conflicts := [];
    for i := 0 to |plan.groups|
      invariant forall c :: c in conflicts ==>
        c.0 < |plan.groups| && c.1 in s.reservations && Conflict(s, plan, c.0, c.1)
      invariant forall k, r :: 0 <= k < i && r in s.reservations && Conflict(s, plan, k, r) ==> (k, r) in conflicts
    {
      for j := 0 to |s.reservations|
        invariant forall c :: c in conflicts ==>
          c.0 < |plan.groups| && c.1 in s.reservations && Conflict(s, plan, c.0, c.1)
        invariant forall k, r :: 0 <= k < i && r in s.reservations && Conflict(s, plan, k, r) ==> (k, r) in conflicts
        invariant forall r :: r in s.reservations[..j] && Conflict(s, plan, i, r) ==> (i, r) in conflicts
      {
        if Conflict(s, plan, i, s.reservations[j]) {
          conflicts := conflicts + [(i, s.reservations[j])];
        }
      }
    }
  }

  /** The check passes exactly when at no instant is another vehicle's reservation on a group in force
      while this AGV is in its slot on that group. Touching ends do not conflict. */
  lemma {:induction false} TemporalCheckMeaning(s: Snapshot, plan: Plan)
    ensures NoTemporalConflict(s, plan) <==>
      forall i, r, t | 0 <= i < |plan.groups| && r in s.reservations && r.group == plan.groups[i] &&
        r.heldBy != plan.agv ::
        SlotStart(s, plan, i) <= t < SlotStart(s, plan, i + 1) ==> !InForce(r, t)
  {
    forall i, r | 0 <= i < |plan.groups| && r in s.reservations && r.group == plan.groups[i] && r.heldBy != plan.agv
      ensures Conflict(s, plan, i, r) <==>
        exists t :: SlotStart(s, plan, i) <= t < SlotStart(s, plan, i + 1) && InForce(r, t)
    {
      SlotEnd(s, plan, i);
      if Conflict(s, plan, i, r) {
        var t := if r.startsAt <= SlotStart(s, plan, i) then SlotStart(s, plan, i) else r.startsAt;
        assert InForce(r, t);
      }
    }
  }

  predicate InForce(r: Reservation, t: real) { r.startsAt <= t < r.endsAt }

  // ---- Circular waits ----

  /** Where `n` steps along the wait-for map lead, if they stay in it. */
  ghost function Follow(waitFor: map<Id, Id>, agv: Id, n: nat): Option<Id> {
    if n == 0 then Some(agv)
    else
      var before := Follow(waitFor, agv, n - 1);
      if before.Some? && before.value in waitFor then Some(waitFor[before.value]) else None
  }

  /** Following the wait-for map from `agv` never leaves it. */
  ghost predicate WaitsForever(waitFor: map<Id, Id>, agv: Id) {
    forall n: nat :: Follow(waitFor, agv, n).Some?
  }

  /** Some AGV on the chain waits, in the end, for itself. */
  ghost predicate ReachesCycle(waitFor: map<Id, Id>, agv: Id) {
    exists i: nat, j: nat :: i < j && Follow(waitFor, agv, i).Some? &&
      Follow(waitFor, agv, i) == Follow(waitFor, agv, j)
  }

  lemma {:induction false} FollowRepeats(waitFor: map<Id, Id>, agv: Id, i: nat, j: nat, k: nat)
    requires Follow(waitFor, agv, i) == Follow(waitFor, agv, j)
    ensures Follow(waitFor, agv, i + k) == Follow(waitFor, agv, j + k)
  {
    if k > 0 {
      FollowRepeats(waitFor, agv, i, j, k - 1);
      assert i + k - 1 == i + (k - 1) && j + k - 1 == j + (k - 1);
    }
  }

  lemma {:induction false} FollowEarlier(waitFor: map<Id, Id>, agv: Id, i: nat, j: nat)
    requires i <= j && Follow(waitFor, agv, j).Some?
    ensures Follow(waitFor, agv, i).Some?
  {
    if i < j {
      FollowEarlier(waitFor, agv, i, j - 1);
    }
  }

  /** A repeated AGV keeps the chain in the map for ever. */
  lemma {:induction false} CycleNeverLeaves(waitFor: map<Id, Id>, agv: Id, i: nat, j: nat, n: nat)
    requires i < j && Follow(waitFor, agv, j).Some? && Follow(waitFor, agv, i) == Follow(waitFor, agv, j)
    ensures Follow(waitFor, agv, n).Some?
    decreases n
  {
    if n <= j {
      FollowEarlier(waitFor, agv, n, j);
    } else {
      CycleNeverLeaves(waitFor, agv, i, j, n - (j - i));
      FollowRepeats(waitFor, agv, i, j, n - j);
      assert i + (n - j) == n - (j - i) && j + (n - j) == n;
    }
  }

  predicate WaitsForNext(waitFor: map<Id, Id>, chain: seq<Id>, i: nat)
    requires i < |chain| - 1
  {
    chain[i] in waitFor && waitFor[chain[i]] == chain[i + 1]
  }

  /** Each AGV of the chain waits for the next, and the last one is among those before it. */
  ghost predicate Circle(waitFor: map<Id, Id>, agv: Id, chain: seq<Id>) {
    && |chain| > 1 && chain[0] == agv
    && (forall i :: 0 <= i < |chain| - 1 ==> WaitsForNext(waitFor, chain, i))
    && exists i :: 0 <= i < |chain| - 1 && chain[i] == chain[|chain| - 1]
  }

  lemma {:induction false} FollowsChain(waitFor: map<Id, Id>, agv: Id, chain: seq<Id>, n: nat)
    requires n < |chain| && chain[0] == agv
    requires forall i :: 0 <= i < |chain| - 1 ==> WaitsForNext(waitFor, chain, i)
    ensures Follow(waitFor, agv, n) == Some(chain[n])
  {
    if n > 0 {
      FollowsChain(waitFor, agv, chain, n - 1);
      assert WaitsForNext(waitFor, chain, n - 1);
    }
  }

  lemma {:induction false} CycleIsCircle(waitFor: map<Id, Id>, agv: Id)
    ensures ReachesCycle(waitFor, agv) <==> exists chain :: Circle(waitFor, agv, chain)
  {
    if ReachesCycle(waitFor, agv) {
      var i: nat, j: nat :| i < j && Follow(waitFor, agv, i).Some? &&
        Follow(waitFor, agv, i) == Follow(waitFor, agv, j);
      forall k: nat | k <= j ensures Follow(waitFor, agv, k).Some? {
        FollowEarlier(waitFor, agv, k, j);
      }
      var chain := seq(j + 1, k requires 0 <= k <= j => Follow(waitFor, agv, k).value);
      forall m | 0 <= m < |chain| - 1 ensures WaitsForNext(waitFor, chain, m) {
        assert Follow(waitFor, agv, m + 1).Some? && Follow(waitFor, agv, m).Some?;
      }
      assert chain[i] == chain[|chain| - 1];
      assert Circle(waitFor, agv, chain);
    }
    if chain :| Circle(waitFor, agv, chain) {
      var i :| 0 <= i < |chain| - 1 && chain[i] == chain[|chain| - 1];
      FollowsChain(waitFor, agv, chain, i);
      FollowsChain(waitFor, agv, chain, |chain| - 1);
    }
  }

  /** The loop terminates, and finds a circular wait exactly when the chain of waits never ends, that
      is, when it runs into a cycle. The membership test after the loop is always false. */
  method HasCircularWait(waitFor: map<Id, Id>, agv: Id) returns (circular: bool)
    ensures circular <==> WaitsForever(waitFor, agv)
    ensures circular <==> ReachesCycle(waitFor, agv)
    ensures circular <==> exists chain :: Circle(waitFor, agv, chain)
  {
    CycleIsCircle(waitFor, agv);
    var current := agv;
    var visited: set<Id> := {};
    ghost var steps := 0;
    while current in waitFor
      invariant Follow(waitFor, agv, steps) == Some(current)
      invariant visited <= waitFor.Keys
      invariant forall v :: v in visited ==> exists i: nat :: i < steps && Follow(waitFor, agv, i) == Some(v)
      decreases waitFor.Keys - visited
    {
      if current in visited {
        ghost var i: nat :| i < steps && Follow(waitFor, agv, i) == Some(current);
        forall n: nat ensures Follow(waitFor, agv, n).Some? {
          CycleNeverLeaves(waitFor, agv, i, steps, n);
        }
        return true;
      }
      visited := visited + {current};
      current := waitFor[current];
      steps := steps + 1;
    }
    assert current !in visited;
    assert Follow(waitFor, agv, steps + 1) == None;
    if ReachesCycle(waitFor, agv) {
      ghost var i: nat, j: nat :| i < j && Follow(waitFor, agv, i).Some? &&
        Follow(waitFor, agv, i) == Follow(waitFor, agv, j);
      CycleNeverLeaves(waitFor, agv, i, j, steps + 1);
      assert false;
    }
    return current in visited;
  }

  // ---- The ten checks ----

  predicate EntitiesValid(intent: Intent, plan: Plan, s: Snapshot) {
    && intent.pallet in s.pallets && intent.source in s.locations && intent.destination in s.locations
    && plan.agv in s.agvs && s.pallets[intent.pallet] == intent.source
  }

  predicate VersionsMatch(plan: Plan, s: Snapshot, p: Proposal) {
    plan.mapVersion == s.mapVersion && p.mapVersion == s.mapVersion && p.snapshotId == s.id
  }

  predicate BatteryOk(plan: Plan, s: Snapshot) {
    plan.agv in s.agvs && s.agvs[plan.agv].battery - plan.energy >= MINIMUM_BATTERY_RESERVE
  }

  predicate VehicleTypeOk(plan: Plan, s: Snapshot) {
    plan.agv in s.agvs && forall n :: n in plan.nodes && n in s.nodes ==> "AGV" in s.nodes[n].vehicleTypes
  }

  predicate ZonesOk(plan: Plan, s: Snapshot) {
    forall n :: n in plan.nodes ==> n in s.nodes && s.nodes[n].zone !in FORBIDDEN_ZONES
  }

  predicate ObstaclesOk(plan: Plan, s: Snapshot) {
    forall n :: n in plan.nodes ==> n !in ActiveNodes(s)
  }

  predicate GroupsFree(plan: Plan, s: Snapshot) {
    forall g :: g in plan.groups && g in s.reservedGroups ==> s.reservedGroups[g] == plan.agv
  }

  predicate DestinationOk(intent: Intent, s: Snapshot) {
    && intent.destination in s.locations && s.locations[intent.destination].reachable
    && (s.locations[intent.destination].occupancy == None ||
         s.locations[intent.destination].occupancy == Some(intent.pallet))
  }

  predicate SemanticsMatch(intent: Intent, plan: Plan, p: Proposal) {
    p.goal == intent && p.agv == plan.agv && p.route == plan.nodes && p.routeVersion == plan.version
  }

  function Checks(intent: Intent, plan: Plan, s: Snapshot, p: Proposal, temporalOk: bool, circular: bool): seq<Check> {
    [ Check(EntityValidity, EntitiesValid(intent, plan, s)),
      Check(MapConsistency, VersionsMatch(plan, s, p)),
      Check(BatteryReserve, BatteryOk(plan, s)),
      Check(VehicleType, VehicleTypeOk(plan, s)),
      Check(ForbiddenZone, ZonesOk(plan, s)),
      Check(CollisionFree, ObstaclesOk(plan, s) && temporalOk),
      Check(ReservationAvailability, GroupsFree(plan, s)),
      Check(Deadlock, !circular),
      Check(DestinationOccupancy, DestinationOk(intent, s)),
      Check(ProposalSemantics, SemanticsMatch(intent, plan, p)) ]
  }

  /** The proof that `verify` issues. */
  ghost function RouteProof(intent: Intent, plan: Plan, s: Snapshot, p: Proposal): Proof {
    IssueProof(p.id, plan.version, s.id,
      Checks(intent, plan, s, p, NoTemporalConflict(s, plan), WaitsForever(s.waitFor, plan.agv)))
  }

  method Verify(intent: Intent, plan: Plan, s: Snapshot, p: Proposal) returns (proof: Proof)
    ensures proof == RouteProof(intent, plan, s, p)
  {
    var conflicts := TemporalConflicts(s, plan);
    assert conflicts == [] <==> NoTemporalConflict(s, plan) by {
      if conflicts != [] {
        assert conflicts[0] in conflicts;
      }
    }
    var circular := HasCircularWait(s.waitFor, plan.agv);
    proof := IssueProof(p.id, plan.version, s.id, Checks(intent, plan, s, p, conflicts == [], circular));
  }

  // ---- The checks in their own terms ----

  /** What each check asks of the plan, the snapshot's entries and the proposal. */
  ghost predicate Asked(name: CheckName, intent: Intent, plan: Plan, s: Snapshot, p: Proposal) {
    match name
    case EntityValidity =>
      && plan.agv in s.agvs && intent.source in s.locations && intent.destination in s.locations
      && intent.pallet in s.pallets && s.pallets[intent.pallet] == intent.source
    case MapConsistency => plan.mapVersion == p.mapVersion == s.mapVersion && p.snapshotId == s.id
    case BatteryReserve => plan.agv in s.agvs && s.agvs[plan.agv].battery - plan.energy >= 20.0
    case VehicleType =>
      && plan.agv in s.agvs
      && forall i | 0 <= i < |plan.nodes| && plan.nodes[i] in s.nodes :: "AGV" in s.nodes[plan.nodes[i]].vehicleTypes
    case ForbiddenZone =>
      forall i | 0 <= i < |plan.nodes| ::
        plan.nodes[i] in s.nodes && s.nodes[plan.nodes[i]].zone != "forbidden" &&
        s.nodes[plan.nodes[i]].zone != "human-only"
    case CollisionFree => NoObstacleHit(plan, s) && NoReservedSlot(plan, s)
    case ReservationAvailability =>
      forall i | 0 <= i < |plan.groups| && plan.groups[i] in s.reservedGroups ::
        s.reservedGroups[plan.groups[i]] == plan.agv
    case Deadlock => !WaitsForever(s.waitFor, plan.agv)
    case DestinationOccupancy =>
      && intent.destination in s.locations && s.locations[intent.destination].reachable
      && (s.locations[intent.destination].occupancy.Some? ==>
            s.locations[intent.destination].occupancy.value == intent.pallet)
    case ProposalSemantics =>
      p.goal == intent && p.agv == plan.agv && p.route == plan.nodes && p.routeVersion == plan.version
    case ApprovalIntegrity => true
  }

  /** Every obstacle on a node of the route has expired, or was not reported surely or often enough. */
  ghost predicate NoObstacleHit(plan: Plan, s: Snapshot) {
    forall o, i | o in s.obstacles && 0 <= i < |plan.nodes| && plan.nodes[i] == s.obstacles[o].node ::
      var seen := s.obstacles[o];
      seen.lastSeen + seen.ttl < s.capturedAt
        || (seen.confidence < 0.9 && (seen.confidence < 0.5 || seen.observations < 2))
  }

  /** No other vehicle's reservation overlaps the slot of its group, an equal share of the duration. */
  ghost predicate NoReservedSlot(plan: Plan, s: Snapshot) {
    forall i, r | 0 <= i < |plan.groups| && r in s.reservations && r.group == plan.groups[i] && r.heldBy != plan.agv ::
      var share := plan.duration / |plan.groups| as real;
      var enters := s.capturedAt + i as real * share;
      r.endsAt <= enters || enters + share <= r.startsAt
  }

  lemma SlotsAreEqualShares(plan: Plan, s: Snapshot)
    ensures NoTemporalConflict(s, plan) <==> NoReservedSlot(plan, s)
  {
    forall i, r | 0 <= i < |plan.groups| && r in s.reservations && r.group == plan.groups[i] && r.heldBy != plan.agv
      ensures var share := plan.duration / |plan.groups| as real;
        var enters := s.capturedAt + i as real * share;
        Conflict(s, plan, i, r) <==> !(r.endsAt <= enters || enters + share <= r.startsAt)
    {
    }
  }

  lemma ObstaclesAreActive(plan: Plan, s: Snapshot)
    ensures ObstaclesOk(plan, s) <==> NoObstacleHit(plan, s)
  {
    if ObstaclesOk(plan, s) {
      forall o, i | o in s.obstacles && 0 <= i < |plan.nodes| && plan.nodes[i] == s.obstacles[o].node
        ensures !ActiveObstacle(s.obstacles[o], s.capturedAt)
      {
        assert plan.nodes[i] in plan.nodes;
      }
    }
  }

  /** The route checks of the engine, by position. */
  const ROUTE_CHECKS := [EntityValidity, MapConsistency, BatteryReserve, VehicleType, ForbiddenZone, CollisionFree,
    ReservationAvailability, Deadlock, DestinationOccupancy, ProposalSemantics]

  lemma CheckMeans(intent: Intent, plan: Plan, s: Snapshot, p: Proposal, i: nat)
    requires i < 10
    ensures |RouteProof(intent, plan, s, p).checks| == 10
    ensures RouteProof(intent, plan, s, p).checks[i]
         == Check(ROUTE_CHECKS[i], Asked(ROUTE_CHECKS[i], intent, plan, s, p))
  {
    SlotsAreEqualShares(plan, s);
    ObstaclesAreActive(plan, s);
    EntriesByPosition(plan, s);
    hide NoTemporalConflict, NoReservedSlot, ObstaclesOk, NoObstacleHit, WaitsForever;
    var checks := RouteProof(intent, plan, s, p).checks;
    assert i == 0 || i == 1 || i == 2 || i == 3 || i == 4 || i == 5 || i == 6 || i == 7 || i == 8 || i == 9;
  }

  lemma EntriesByPosition(plan: Plan, s: Snapshot)
    ensures VehicleTypeOk(plan, s) <==>
      && plan.agv in s.agvs
      && forall i | 0 <= i < |plan.nodes| && plan.nodes[i] in s.nodes :: "AGV" in s.nodes[plan.nodes[i]].vehicleTypes
    ensures ZonesOk(plan, s) <==>
      forall i | 0 <= i < |plan.nodes| ::
        plan.nodes[i] in s.nodes && s.nodes[plan.nodes[i]].zone != "forbidden" &&
        s.nodes[plan.nodes[i]].zone != "human-only"
    ensures GroupsFree(plan, s) <==>
      forall i | 0 <= i < |plan.groups| && plan.groups[i] in s.reservedGroups ::
        s.reservedGroups[plan.groups[i]] == plan.agv
  {
    forall i | 0 <= i < |plan.nodes| ensures plan.nodes[i] in plan.nodes {
    }
    forall n | n in plan.nodes ensures exists i :: 0 <= i < |plan.nodes| && plan.nodes[i] == n {
    }
    forall i | 0 <= i < |plan.groups| ensures plan.groups[i] in plan.groups {
    }
    forall g | g in plan.groups ensures exists i :: 0 <= i < |plan.groups| && plan.groups[i] == g {
    }
  }

  /** A route proof lists the ten checks in order, each passed exactly when what it asks is so; it is issued
      for the proposal, the plan and the snapshot; and it passes exactly when everything asked is so. */
  lemma {:induction false} ProofMeans(intent: Intent, plan: Plan, s: Snapshot, p: Proposal)
    ensures var proof := RouteProof(intent, plan, s, p);
      && proof.proposalId == p.id && proof.routeVersion == plan.version && proof.snapshotId == s.id
      && |proof.checks| == 10
      && (forall i :: 0 <= i < 10 ==>
            proof.checks[i] == Check(ROUTE_CHECKS[i], Asked(ROUTE_CHECKS[i], intent, plan, s, p)))
      && (proof.passed <==> forall name :: Asked(name, intent, plan, s, p))
  {
    hide Asked;
    var proof := RouteProof(intent, plan, s, p);
    forall i | 0 <= i < 10
      ensures |proof.checks| == 10 &&
        proof.checks[i] == Check(ROUTE_CHECKS[i], Asked(ROUTE_CHECKS[i], intent, plan, s, p))
    {
      CheckMeans(intent, plan, s, p, i);
    }
    CheckMeans(intent, plan, s, p, 0);
    PassedMeans(intent, plan, s, p);
  }

  lemma PassedMeans(intent: Intent, plan: Plan, s: Snapshot, p: Proposal)
    requires var proof := RouteProof(intent, plan, s, p);
      && |proof.checks| == 10
      && forall i :: 0 <= i < 10 ==>
           proof.checks[i] == Check(ROUTE_CHECKS[i], Asked(ROUTE_CHECKS[i], intent, plan, s, p))
    ensures RouteProof(intent, plan, s, p).passed <==> forall name :: Asked(name, intent, plan, s, p)
  {
    var proof := RouteProof(intent, plan, s, p);
    SealIsNotAsked(intent, plan, s, p);
    hide Asked, Checks;
    assert proof.passed == AllPassed(proof.checks);
    if proof.passed {
      forall name ensures Asked(name, intent, plan, s, p) {
        var i := PlaceOf(name);
        if i < 10 {
          assert proof.checks[i] in proof.checks;
        }
      }
    }
    if forall name :: Asked(name, intent, plan, s, p) {
      forall c | c in proof.checks ensures c.passed {
        var i :| 0 <= i < 10 && proof.checks[i] == c;
        assert Asked(ROUTE_CHECKS[i], intent, plan, s, p);
      }
    }
  }

  lemma SealIsNotAsked(intent: Intent, plan: Plan, s: Snapshot, p: Proposal)
    ensures Asked(ApprovalIntegrity, intent, plan, s, p)
  {
  }

  /** Where a check stands in the list. */
  function PlaceOf(name: CheckName): (i: nat)
    ensures i <= 10 && (i < 10 ==> ROUTE_CHECKS[i] == name) && (i == 10 ==> name == ApprovalIntegrity)
  {
    match name
    case EntityValidity => 0
    case MapConsistency => 1
    case BatteryReserve => 2
    case VehicleType => 3
    case ForbiddenZone => 4
    case CollisionFree => 5
    case ReservationAvailability => 6
    case Deadlock => 7
    case DestinationOccupancy => 8
    case ProposalSemantics => 9
    case ApprovalIntegrity => 10
  }

  /** What is judged about the route itself, apart from the paperwork of versions and proposal. */
  ghost predicate SafeRoute(intent: Intent, plan: Plan, s: Snapshot) {
    && EntitiesValid(intent, plan, s) && BatteryOk(plan, s) && VehicleTypeOk(plan, s)
    && ZonesOk(plan, s) && ObstaclesOk(plan, s) && NoTemporalConflict(s, plan)
    && GroupsFree(plan, s) && !WaitsForever(s.waitFor, plan.agv) && DestinationOk(intent, s)
  }

  /** A proof passes exactly when the route is safe and the proposal describes it. */
  lemma {:induction false} ProofPasses(intent: Intent, plan: Plan, s: Snapshot, p: Proposal)
    ensures RouteProof(intent, plan, s, p).passed <==>
      SafeRoute(intent, plan, s) && VersionsMatch(plan, s, p) && SemanticsMatch(intent, plan, p)
  {
    var checks := RouteProof(intent, plan, s, p).checks;
    assert AllPassed(checks) <==> forall i :: 0 <= i < 10 ==> checks[i].passed;
    assert (forall i :: 0 <= i < 10 ==> checks[i].passed) ==>
      checks[0].passed && checks[1].passed && checks[2].passed && checks[3].passed && checks[4].passed
      && checks[5].passed && checks[6].passed && checks[7].passed && checks[8].passed && checks[9].passed;
  }

  /** The engine itself issues no approval check. */
  lemma RouteProofNames(intent: Intent, plan: Plan, s: Snapshot, p: Proposal)
    ensures forall c :: c in RouteProof(intent, plan, s, p).checks ==> c.name != ApprovalIntegrity
  {
  }

  // ---- Sealing a proof with an approval ----

  function Without(checks: seq<Check>, name: CheckName): (r: seq<Check>)
    ensures forall c :: c in r <==> c in checks && c.name != name
  {
    if checks == [] then []
    else
      var rest := Without(checks[1..], name);
      assert forall c :: c in checks <==> c == checks[0] || c in checks[1..];
      if checks[0].name != name then [checks[0]] + rest else rest
  }

  /** `bind_approval_integrity`. */
  function BindApproval(proof: Proof, p: Proposal, a: Approval, at: real): Proof {
    IssueProof(proof.proposalId, proof.routeVersion, proof.snapshotId,
      Without(proof.checks, ApprovalIntegrity) + [Check(ApprovalIntegrity, ValidFor(a, p, at))])
  }

  /** A sealed proof passes exactly when every other check passed and the approval holds, whatever an
      earlier seal said; sealing again replaces the seal. */
  lemma SealPasses(proof: Proof, p: Proposal, a: Approval, at: real, a': Approval, at': real)
    ensures BindApproval(proof, p, a, at).passed <==>
      ValidFor(a, p, at) && forall c :: c in proof.checks && c.name != ApprovalIntegrity ==> c.passed
    ensures BindApproval(BindApproval(proof, p, a, at), p, a', at').passed <==> BindApproval(proof, p, a', at').passed
    ensures var sealed := BindApproval(proof, p, a, at);
      && sealed.proposalId == proof.proposalId && sealed.routeVersion == proof.routeVersion
      && sealed.snapshotId == proof.snapshotId
      && forall c :: c in sealed.checks <==>
           (c in proof.checks && c.name != ApprovalIntegrity) || c == Check(ApprovalIntegrity, ValidFor(a, p, at))
  {
    var sealed := BindApproval(proof, p, a, at);
    var checks := Without(proof.checks, ApprovalIntegrity);
    assert forall c :: c in sealed.checks <==> c in checks || c == Check(ApprovalIntegrity, ValidFor(a, p, at));
    var again := BindApproval(proof, p, a', at');
    assert forall c :: c in again.checks <==> c in checks || c == Check(ApprovalIntegrity, ValidFor(a', p, at'));
    var resealed := BindApproval(sealed, p, a', at');
    var checks' := Without(sealed.checks, ApprovalIntegrity);
    assert forall c :: c in resealed.checks <==> c in checks' || c == Check(ApprovalIntegrity, ValidFor(a', p, at'));
  }

  /** A route proof sealed with an approval passes exactly when the route is safe, the proposal
      describes it and the approval holds. */
  lemma {:induction false} SealedRoutePasses(intent: Intent, plan: Plan, s: Snapshot, p: Proposal, approved: Proposal,
    a: Approval, at: real)
    ensures BindApproval(RouteProof(intent, plan, s, p), approved, a, at).passed <==>
      && SafeRoute(intent, plan, s) && VersionsMatch(plan, s, p) && SemanticsMatch(intent, plan, p)
      && ValidFor(a, approved, at)
  {
    ProofPasses(intent, plan, s, p);
    RouteProofNames(intent, plan, s, p);
    SealUnsealed(RouteProof(intent, plan, s, p), approved, a, at);
  }

  lemma SealUnsealed(proof: Proof, p: Proposal, a: Approval, at: real)
    requires proof.passed == AllPassed(proof.checks)
    requires forall c :: c in proof.checks ==> c.name != ApprovalIntegrity
    ensures BindApproval(proof, p, a, at).passed <==> ValidFor(a, p, at) && proof.passed
  {
    SealPasses(proof, p, a, at, a, at);
  }
}
