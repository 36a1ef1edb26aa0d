/** Where the planner and the safety engine agree, although their rules are written apart. */
module Agreement {
  import opened Domain
  import opened RoutePlanner
  import opened Planning
  import opened Safety

  /** Edges run between nodes of the map. */
  ghost predicate EdgesOnMap(s: Snapshot) {
    forall e :: e in s.edges ==> e.fromNode in s.nodes && e.toNode in s.nodes
  }

  /** Every obstacle the engine counts, the planner avoids. */
  lemma {:induction false} ActiveIsAvoided(s: Snapshot)
    ensures ActiveNodes(s) <= Avoided(s)
  {
    forall n | n in ActiveNodes(s) ensures n in Avoided(s) {
      var o :| o in s.obstacles && ActiveObstacle(s.obstacles[o], s.capturedAt) && s.obstacles[o].node == n;
      assert Blocks(s.obstacles[o], s.capturedAt);
    }
  }

  /** The planner is the stricter of the two exactly on fresh obstacles seen at least twice with
      confidence below one half. */
  lemma BlocksButNotActive(o: Obstacle, at: real)
    ensures Blocks(o, at) && !ActiveObstacle(o, at) <==>
      o.lastSeen + o.ttl >= at && o.observations >= 2 && o.confidence < MINIMUM_OBSTACLE_CONFIDENCE
  {
  }

  ghost predicate OriginClear(s: Snapshot, origin: Id) {
    origin in s.nodes && !OffLimits(s.nodes[origin].zone) && origin !in ActiveNodes(s)
  }

  /** Past its origin a planned route meets the engine's rules on zones and obstacles. */
  lemma {:induction false} RouteKeepsClear(s: Snapshot, intent: Intent, start: Option<Id>, force: Option<Id>,
    plan: Plan)
    requires EdgesOnMap(s) && Plans(s, intent, start, force, Planned(plan))
    ensures forall i :: 0 <= i < |plan.nodes| ==> plan.nodes[i] in s.nodes
    ensures forall i :: 0 < i < |plan.nodes| ==> OriginClear(s, plan.nodes[i])
  {
    PlanFollowsEdges(s, intent, start, force, plan);
    ActiveIsAvoided(s);
    forall i | 0 <= i < |plan.nodes| ensures plan.nodes[i] in s.nodes {
      var k := if i == 0 then 0 else i - 1;
      assert Linked(s.edges, plan.nodes, k);
    }
    forall i | 0 < i < |plan.nodes| ensures OriginClear(s, plan.nodes[i]) {
      assert plan.nodes[i] !in Avoided(s);
    }
  }

  lemma {:induction false} ClearRouteMeansClearOrigin(s: Snapshot, plan: Plan)
    requires forall i :: 0 <= i < |plan.nodes| ==> plan.nodes[i] in s.nodes
    requires forall i :: 0 < i < |plan.nodes| ==> OriginClear(s, plan.nodes[i])
    ensures ZonesOk(plan, s) <==> !OffLimits(s.nodes[plan.nodes[0]].zone)
    ensures ObstaclesOk(plan, s) <==> plan.nodes[0] !in ActiveNodes(s)
  {
    assert plan.nodes[0] in plan.nodes;
    forall n | n in plan.nodes ensures n == plan.nodes[0] || OriginClear(s, n) {
      var i :| 0 <= i < |plan.nodes| && plan.nodes[i] == n;
    }
  }

  /** For a planned route with a proposal issued from the same snapshot, the versions and the semantics
      always match, and the zone and obstacle rules can fail only at the origin. The proof passes
      exactly when the origin is clear, the pallet is where the intent says, and the battery, vehicle
      type, reservation, circular-wait and destination checks pass. */
  lemma {:induction false} PlannerAndSafetyAgree(s: Snapshot, intent: Intent, start: Option<Id>, force: Option<Id>,
    plan: Plan, id: Id, hash: Id)
    requires EdgesOnMap(s) && Plans(s, intent, start, force, Planned(plan))
    ensures plan.nodes[0] in s.nodes && plan.agv in s.agvs && intent.destination in s.locations
    ensures var p := IssueProposal(id, intent, plan, s.id, hash);
      && VersionsMatch(plan, s, p) && SemanticsMatch(intent, plan, p)
      && (ZonesOk(plan, s) <==> !OffLimits(s.nodes[plan.nodes[0]].zone))
      && (ObstaclesOk(plan, s) <==> plan.nodes[0] !in ActiveNodes(s))
      && (RouteProof(intent, plan, s, p).passed <==>
           && OriginClear(s, plan.nodes[0])
           && intent.pallet in s.pallets && s.pallets[intent.pallet] == intent.source
           && s.agvs[plan.agv].battery - plan.energy >= MINIMUM_BATTERY_RESERVE
           && VehicleTypeOk(plan, s) && GroupsFree(plan, s) && NoTemporalConflict(s, plan)
           && !WaitsForever(s.waitFor, plan.agv)
           && (s.locations[intent.destination].occupancy == None
               || s.locations[intent.destination].occupancy == Some(intent.pallet)))
  {
    RouteKeepsClear(s, intent, start, force, plan);
    ClearRouteMeansClearOrigin(s, plan);
    PlanFollowsEdges(s, intent, start, force, plan);
    ProofPasses(intent, plan, s, IssueProposal(id, intent, plan, s.id, hash));
  }
}
