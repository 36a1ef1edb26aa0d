/** `DeterministicPlanner.plan`: AGV selection, the blocked nodes, and the plan built from the route
    that the search returns. Rounding to three digits is not modelled. */
module Planning {
  import opened Domain
  import opened RoutePlanner

  const ENERGY_PER_METER := 0.75

  predicate Fresh(o: Obstacle, at: real) { o.lastSeen + o.ttl >= at }

  /** Obstacles the planner routes around. */
  predicate Blocks(o: Obstacle, at: real) {
    Fresh(o, at) && (o.confidence >= 0.9 || o.observations >= 2)
  }

  predicate OffLimits(zone: string) { zone == "forbidden" || zone == "human-only" }

  function Avoided(s: Snapshot): set<Id> {
    (set o | o in s.obstacles && Blocks(s.obstacles[o], s.capturedAt) :: s.obstacles[o].node)
    + (set n | n in s.nodes && OffLimits(s.nodes[n].zone))
  }

  // ---- AGV selection ----

  predicate Eligible(agv: Agv, forced: bool) {
    (agv.status.AgvIdle? || (forced && agv.status.AgvStopped?)) && agv.carriesPallets
  }

  function Candidates(s: Snapshot, intent: Intent, force: Option<Id>): set<Id> {
    var requested := if force.Some? then force else intent.requestedAgv;
    set a | a in s.agvs && Eligible(s.agvs[a], force.Some?) && (requested == None || requested == Some(a))
  }

  /** `a` comes no later than `b` when sorted by descending battery and then by identifier. */
  predicate Preferred(agvs: map<Id, Agv>, a: Id, b: Id)
    requires a in agvs && b in agvs
  {
    agvs[a].battery > agvs[b].battery || (agvs[a].battery == agvs[b].battery && a <= b)
  }

  ghost predicate Selected(s: Snapshot, intent: Intent, force: Option<Id>, a: Id) {
    a in Candidates(s, intent, force)
    && forall b :: b in Candidates(s, intent, force) ==> Preferred(s.agvs, a, b)
  }

  lemma NonEmpty(s: set<Id>)
    requires s != {}
    ensures exists a :: a in s
  {
    if forall a :: a !in s {
      assert false;
    }
  }

  method SelectAgv(s: Snapshot, intent: Intent, force: Option<Id>) returns (choice: Option<(Id, nat)>)
    ensures choice.None? <==> Candidates(s, intent, force) == {}
    ensures choice.Some? ==>
      Selected(s, intent, force, choice.value.0) && choice.value.1 == |Candidates(s, intent, force)|
  {
    var candidates := Candidates(s, intent, force);
    if |candidates| == 0 {
      return None;
    }
    NonEmpty(candidates);
    var first :| first in candidates;
    var rest := candidates - {first};
    while |rest| > 0
      invariant rest <= candidates && first in candidates
      invariant forall b :: b in candidates && b !in rest ==> Preferred(s.agvs, first, b)
      decreases rest
    {
      NonEmpty(rest);
      var next :| next in rest;
      if !Preferred(s.agvs, first, next) {
        first := next;
      }
      rest := rest - {next};
    }
    return Some((first, |candidates|));
  }

  // ---- Plans ----

  function Duration(along: seq<Edge>): (d: real)
    ensures d >= 0.0 && (along != [] ==> d > 0.0)
  {
    if along == [] then 0.0
    else
      var e := along[|along| - 1];
      Quotient(e.length, e.speed);
      Duration(along[..|along| - 1]) + e.length / e.speed
  }

  lemma Quotient(a: real, b: real)
    requires a > 0.0 && b > 0.0
    ensures a / b > 0.0
  {
  }

  function Groups(along: seq<Edge>): (g: seq<Id>)
    ensures |g| == |along|
  {
    seq(|along|, i requires 0 <= i < |along| => along[i].group)
  }

  function MakePlan(s: Snapshot, agv: Id, path: seq<Id>, along: seq<Edge>, candidates: nat): RawPlan {
    var distance := Length(along);
    RoutePlan(RouteVersion(s.mapVersion, agv, path, Groups(along), distance), s.mapVersion, agv, path,
      Groups(along), distance, distance * ENERGY_PER_METER, Duration(along), candidates)
  }

  datatype Outcome = Planned(plan: Plan) | NoFeasiblePlan | InvalidPlan

  predicate Endpoints(s: Snapshot, intent: Intent) {
    && intent.source in s.locations && s.locations[intent.source].reachable
    && intent.destination in s.locations && s.locations[intent.destination].reachable
  }

  function Origin(s: Snapshot, intent: Intent, start: Option<Id>): Id
    requires Endpoints(s, intent)
  {
    if start.Some? then start.value else s.locations[intent.source].node
  }

  function Search(s: Snapshot, intent: Intent, start: Option<Id>): Problem
    requires Endpoints(s, intent)
  {
    Problem(s.edges, Avoided(s), Origin(s, intent, start), s.locations[intent.destination].node)
  }

  /** `plan` is the plan made from route `along`. */
  ghost predicate PlanOf(s: Snapshot, intent: Intent, start: Option<Id>, force: Option<Id>, plan: RawPlan,
    along: seq<Edge>) {
    && Endpoints(s, intent)
    && Selected(s, intent, force, plan.agv)
    && plan == MakePlan(s, plan.agv, plan.nodes, along, |Candidates(s, intent, force)|)
    && Answer(Search(s, intent, start), Some((plan.nodes, along)))
  }

  /** What `plan` may return. A route of one node, from a place to itself, is refused by the plan's
      validator. */
  ghost predicate Plans(s: Snapshot, intent: Intent, start: Option<Id>, force: Option<Id>, outcome: Outcome) {
    match outcome
    case Planned(plan) => exists along :: PlanOf(s, intent, start, force, plan, along)
    case NoFeasiblePlan =>
      !Endpoints(s, intent) || Candidates(s, intent, force) == {} || Answer(Search(s, intent, start), None)
    case InvalidPlan =>
      && Endpoints(s, intent) && Candidates(s, intent, force) != {}
      && Origin(s, intent, start) == s.locations[intent.destination].node
  }

  lemma RouteShape(pr: Problem, path: seq<Id>, along: seq<Edge>)
    requires Answer(pr, Some((path, along)))
    ensures |path| == |along| + 1 && path[0] == pr.start && path[|path| - 1] == pr.destination
    ensures along == [] <==> pr.start == pr.destination
    ensures along != [] ==> Length(along) > 0.0
  {
    if along != [] {
      assert path[0] != path[|path| - 1];
    }
  }

  method MakeRoute(s: Snapshot, intent: Intent, start: Option<Id>, force: Option<Id>) returns (outcome: Outcome)
    ensures Plans(s, intent, start, force, outcome)
  {
    if !(intent.source in s.locations && intent.destination in s.locations
         && s.locations[intent.source].reachable && s.locations[intent.destination].reachable) {
      return NoFeasiblePlan;
    }
    var choice := SelectAgv(s, intent, force);
    if choice.None? {
      return NoFeasiblePlan;
    }
    var (agv, candidates) := choice.value;
    var destination := s.locations[intent.destination].node;
    var route, pops := ShortestPath(Origin(s, intent, start), destination, s.edges, Avoided(s));
    if route.None? {
      return NoFeasiblePlan;
    }
    var (path, along) := route.value;
    RouteShape(Search(s, intent, start), path, along);
    var plan := MakePlan(s, agv, path, along, candidates);
    if |path| < 2 {
      return InvalidPlan;
    }
    assert PlanOf(s, intent, start, force, plan, along);
    return Planned(plan);
  }

  // ---- The planner in its own terms ----

  /** An AGV that may be chosen: idle, or stopped when it is forced; fit for pallets; and the one forced or
      asked for, if any. */
  ghost predicate MayCarry(s: Snapshot, intent: Intent, force: Option<Id>, a: Id) {
    && a in s.agvs && s.agvs[a].carriesPallets
    && (s.agvs[a].status == AgvIdle || (force.Some? && s.agvs[a].status == AgvStopped))
    && (force.Some? ==> a == force.value)
    && (force.None? && intent.requestedAgv.Some? ==> a == intent.requestedAgv.value)
  }

  /** A node that no route enters: in a closed zone, or under an obstacle that has not expired and is
      reported surely or repeatedly. */
  ghost predicate Closed(s: Snapshot, n: Id) {
    || (n in s.nodes && (s.nodes[n].zone == "forbidden" || s.nodes[n].zone == "human-only"))
    || exists o :: o in s.obstacles && s.obstacles[o].node == n && s.obstacles[o].lastSeen + s.obstacles[o].ttl
                   >= s.capturedAt && (s.obstacles[o].confidence >= 0.9 || s.obstacles[o].observations >= 2)
  }

  /** Edge `i` of the way is one of the map, leads from its node to the next in a direction in which it can
      be driven, and enters no closed node. */
  ghost predicate Drives(s: Snapshot, nodes: seq<Id>, along: seq<Edge>, i: nat)
    requires i < |along| && |nodes| == |along| + 1
  {
    && along[i] in s.edges && !Closed(s, nodes[i + 1])
    && ((along[i].fromNode == nodes[i] && along[i].toNode == nodes[i + 1])
        || (along[i].bidirectional && along[i].fromNode == nodes[i + 1] && along[i].toNode == nodes[i]))
  }

  /** A way between two nodes. */
  ghost predicate Way(s: Snapshot, origin: Id, goal: Id, nodes: seq<Id>, along: seq<Edge>) {
    && |nodes| == |along| + 1 && nodes[0] == origin && nodes[|nodes| - 1] == goal
    && forall i :: 0 <= i < |along| ==> Drives(s, nodes, along, i)
  }

  ghost predicate NoWay(s: Snapshot, origin: Id, goal: Id) { forall p, es :: !Way(s, origin, goal, p, es) }

  lemma ClosedIsAvoided(s: Snapshot, n: Id)
    ensures n in Avoided(s) <==> Closed(s, n)
  {
    if Closed(s, n) && !(n in s.nodes && OffLimits(s.nodes[n].zone)) {
      var o :| o in s.obstacles && s.obstacles[o].node == n && s.obstacles[o].lastSeen + s.obstacles[o].ttl
        >= s.capturedAt && (s.obstacles[o].confidence >= 0.9 || s.obstacles[o].observations >= 2);
      assert Blocks(s.obstacles[o], s.capturedAt);
    }
  }

  lemma WayIsWalk(s: Snapshot, origin: Id, goal: Id, nodes: seq<Id>, along: seq<Edge>)
    ensures Way(s, origin, goal, nodes, along) <==>
      Walk(s.edges, Avoided(s), origin, nodes, along) && Last(nodes) == goal
  {
    hide Avoided, Closed;
    if |nodes| == |along| + 1 {
      forall i | 0 <= i < |along|
        ensures Drives(s, nodes, along, i) <==> Hop(s.edges, Avoided(s), nodes, along, i)
      {
        ClosedIsAvoided(s, nodes[i + 1]);
      }
    }
  }

  lemma CandidatesMayCarry(s: Snapshot, intent: Intent, force: Option<Id>)
    ensures Candidates(s, intent, force) == set a | a in s.agvs && MayCarry(s, intent, force, a)
  {
  }

  /** What each figure of a plan is: the selected AGV, of highest battery and then least identifier among
      those that may carry; the groups of the way's edges; their lengths added up, and from these the
      energy; the times to drive them added up; and how many AGVs there were to choose from. */
  ghost predicate Figures(s: Snapshot, intent: Intent, force: Option<Id>, plan: RawPlan, along: seq<Edge>) {
    && MayCarry(s, intent, force, plan.agv)
    && (forall b :: MayCarry(s, intent, force, b) ==>
          s.agvs[plan.agv].battery > s.agvs[b].battery
          || (s.agvs[plan.agv].battery == s.agvs[b].battery && plan.agv <= b))
    && plan.candidates == |set a | a in s.agvs && MayCarry(s, intent, force, a)|
    && |plan.groups| == |along| && (forall i :: 0 <= i < |along| ==> plan.groups[i] == along[i].group)
    && plan.distance == Length(along) && plan.energy == plan.distance * 0.75 && plan.duration == Duration(along)
    && plan.mapVersion == s.mapVersion
    && plan.version == RouteVersion(s.mapVersion, plan.agv, plan.nodes, plan.groups, plan.distance)
  }

  /** No way between its ends is shorter than the route's, or as short and first in the order of lists. */
  ghost predicate Shortest(s: Snapshot, nodes: seq<Id>, along: seq<Edge>)
    requires nodes != []
  {
    forall p, es :: Way(s, nodes[0], nodes[|nodes| - 1], p, es) ==>
      Length(along) < Length(es) || (Length(along) == Length(es) && FirstInOrder(nodes, p))
  }

  /** A plan leads, by the shortest way, from the given start or else the source, to the destination. */
  lemma {:induction false} PlanMeans(s: Snapshot, intent: Intent, start: Option<Id>, force: Option<Id>, plan: Plan)
    returns (along: seq<Edge>)
    requires Plans(s, intent, start, force, Planned(plan))
    ensures intent.source in s.locations && intent.destination in s.locations
    ensures Way(s, if start.Some? then start.value else s.locations[intent.source].node,
      s.locations[intent.destination].node, plan.nodes, along)
    ensures Figures(s, intent, force, plan, along) && Shortest(s, plan.nodes, along)
    ensures forall i, j :: 0 <= i < j < |plan.nodes| ==> plan.nodes[i] != plan.nodes[j]
  {
    hide Avoided;
    along :| PlanOf(s, intent, start, force, plan, along);
    var origin, goal := Origin(s, intent, start), s.locations[intent.destination].node;
    WayIsWalk(s, origin, goal, plan.nodes, along);
    SelectedMeans(s, intent, force, plan.agv);
    ShortestMeans(s, origin, goal, plan.nodes, along);
  }

  lemma SelectedMeans(s: Snapshot, intent: Intent, force: Option<Id>, a: Id)
    requires Selected(s, intent, force, a)
    ensures MayCarry(s, intent, force, a)
    ensures forall b :: MayCarry(s, intent, force, b) ==>
      s.agvs[a].battery > s.agvs[b].battery || (s.agvs[a].battery == s.agvs[b].battery && a <= b)
    ensures |Candidates(s, intent, force)| == |set c | c in s.agvs && MayCarry(s, intent, force, c)|
  {
    CandidatesMayCarry(s, intent, force);
    forall b | MayCarry(s, intent, force, b)
      ensures s.agvs[a].battery > s.agvs[b].battery || (s.agvs[a].battery == s.agvs[b].battery && a <= b)
    {
      assert b in Candidates(s, intent, force);
    }
  }

  lemma ShortestMeans(s: Snapshot, origin: Id, goal: Id, nodes: seq<Id>, along: seq<Edge>)
    requires nodes != [] && nodes[0] == origin && Last(nodes) == goal
    requires Best(s.edges, Avoided(s), origin, nodes, along)
    ensures Shortest(s, nodes, along)
  {
    hide Avoided, Walk, Way;
    forall p, es | Way(s, origin, goal, p, es)
      ensures Length(along) < Length(es) || (Length(along) == Length(es) && FirstInOrder(nodes, p))
    {
      WayIsWalk(s, origin, goal, p, es);
      LexMeans(nodes, p);
    }
  }

  /** The planner finds nothing exactly when an endpoint is missing or unreachable, no AGV may carry, or
      there is no way; and its answer is refused exactly when the way leads to where it starts. */
  lemma {:induction false} NoPlanMeans(s: Snapshot, intent: Intent, start: Option<Id>, force: Option<Id>)
    ensures var known := intent.source in s.locations && intent.destination in s.locations
        && s.locations[intent.source].reachable && s.locations[intent.destination].reachable;
      && (Plans(s, intent, start, force, NoFeasiblePlan) <==>
            !known || (forall a :: !MayCarry(s, intent, force, a))
            || NoWay(s, if start.Some? then start.value else s.locations[intent.source].node,
                 s.locations[intent.destination].node))
      && (Plans(s, intent, start, force, InvalidPlan) <==>
            && known && (exists a :: MayCarry(s, intent, force, a))
            && s.locations[intent.destination].node
               == if start.Some? then start.value else s.locations[intent.source].node)
  {
    hide Avoided, Walk, Way;
    CandidatesMayCarry(s, intent, force);
    NoneMayCarry(s, intent, force);
    if Endpoints(s, intent) {
      NoWayIsNoAnswer(s, Origin(s, intent, start), s.locations[intent.destination].node);
    }
  }

  lemma NoWayIsNoAnswer(s: Snapshot, origin: Id, goal: Id)
    ensures NoWay(s, origin, goal) <==> Answer(Problem(s.edges, Avoided(s), origin, goal), None)
  {
    hide Avoided, Way;
    if NoWay(s, origin, goal) {
      forall p, es | Walk(s.edges, Avoided(s), origin, p, es) ensures Last(p) != goal {
        WayIsWalk(s, origin, goal, p, es);
        assert !Way(s, origin, goal, p, es);
      }
    } else {
      var p, es :| Way(s, origin, goal, p, es);
      WayIsWalk(s, origin, goal, p, es);
    }
  }

  lemma NoneMayCarry(s: Snapshot, intent: Intent, force: Option<Id>)
    ensures Candidates(s, intent, force) == {} <==> forall a :: !MayCarry(s, intent, force, a)
  {
    CandidatesMayCarry(s, intent, force);
    if a :| MayCarry(s, intent, force, a) {
      assert a in Candidates(s, intent, force);
    }
  }

  /** The driving time of a list of edges is the sum over them of length by speed. */
  lemma {:induction false} DurationAdds(a: seq<Edge>, b: seq<Edge>, e: Edge)
    ensures e.speed > 0.0 && Duration([e]) == e.length / e.speed && Duration(a + b) == Duration(a) + Duration(b)
  {
    assert [e][..0] == [];
    if b == [] {
      assert a + b == a;
    } else {
      DurationAdds(a, b[..|b| - 1], e);
      assert (a + b)[..|a + b| - 1] == a + b[..|b| - 1];
    }
  }

  /** A route to the destination over edges of the snapshot that keeps clear of avoided nodes. */
  ghost predicate Reachable(s: Snapshot, intent: Intent, start: Option<Id>)
    requires Endpoints(s, intent)
  {
    exists p, es :: Walk(s.edges, Avoided(s), Origin(s, intent, start), p, es)
      && Last(p) == s.locations[intent.destination].node
  }

  /** Completeness: the planner returns a plan exactly when the endpoints are live, some AGV
      qualifies, the destination is elsewhere and a clear way there exists. */
  lemma {:induction false} PlansExactlyWhenPossible(s: Snapshot, intent: Intent, start: Option<Id>, force: Option<Id>,
    outcome: Outcome)
    requires Plans(s, intent, start, force, outcome)
    ensures outcome.Planned? <==>
      && Endpoints(s, intent) && Candidates(s, intent, force) != {}
      && Origin(s, intent, start) != s.locations[intent.destination].node && Reachable(s, intent, start)
  {
    if Endpoints(s, intent) {
      var origin := Origin(s, intent, start);
      if outcome.Planned? {
        var along :| PlanOf(s, intent, start, force, outcome.plan, along);
        RouteShape(Search(s, intent, start), outcome.plan.nodes, along);
      } else if Reachable(s, intent, start) && Candidates(s, intent, force) != {} {
        assert outcome.InvalidPlan?;
      }
    }
  }

  /** What a plan promises about its route. */
  lemma {:induction false} PlanFollowsEdges(s: Snapshot, intent: Intent, start: Option<Id>, force: Option<Id>,
    plan: Plan)
    requires Plans(s, intent, start, force, Planned(plan))
    ensures plan.nodes[0] == Origin(s, intent, start)
    ensures plan.nodes[|plan.nodes| - 1] == s.locations[intent.destination].node
    ensures Simple(plan.nodes)
    ensures forall i :: 0 < i < |plan.nodes| ==> plan.nodes[i] !in Avoided(s)
    ensures forall i :: 0 <= i < |plan.nodes| - 1 ==> Linked(s.edges, plan.nodes, i)
    ensures plan.mapVersion == s.mapVersion && plan.agv in s.agvs && (force.Some? ==> plan.agv == force.value)
    ensures |plan.groups| == |plan.nodes| - 1
  {
    var along :| PlanOf(s, intent, start, force, plan, along);
    RouteShape(Search(s, intent, start), plan.nodes, along);
    forall i | 0 < i < |plan.nodes| ensures plan.nodes[i] !in Avoided(s) {
      assert Hop(s.edges, Avoided(s), plan.nodes, along, i - 1);
    }
    forall i | 0 <= i < |plan.nodes| - 1 ensures Linked(s.edges, plan.nodes, i) {
      assert Hop(s.edges, Avoided(s), plan.nodes, along, i);
    }
  }

  /** Consecutive route nodes are joined by an edge of the map. */
  ghost predicate Linked(edges: seq<Edge>, nodes: seq<Id>, i: nat)
    requires i + 1 < |nodes|
  {
    exists e :: e in edges && Joins(e, nodes[i], nodes[i + 1])
  }

  /** Replanning the same request gives the same AGV over the same nodes, however ties fall. */
  lemma {:induction false} PlanIsCanonical(s: Snapshot, intent: Intent, start: Option<Id>, force: Option<Id>, a: Plan,
    b: Plan)
    requires Plans(s, intent, start, force, Planned(a)) && Plans(s, intent, start, force, Planned(b))
    ensures a.agv == b.agv && a.nodes == b.nodes && a.distance == b.distance && a.energy == b.energy
  {
    var along :| PlanOf(s, intent, start, force, a, along);
    var along' :| PlanOf(s, intent, start, force, b, along');
    RouteIsCanonical(s.edges, s.edges, Avoided(s), Origin(s, intent, start), a.nodes, along, b.nodes, along');
  }
}
