/** The reference world of simulator.py and the execution adapter of adapters.py.

    A call that raises may have assigned some fields already. Each adapter function has a companion,
    named `...Left`, that gives the plant as a raise leaves it. Headings are not modelled. */
module Plant {
  import opened Domain

  datatype Blockage = Blockage(obstacle: Id, node: Id, confidence: real, ttl: real)

  /** What a scenario fixes for good. */
  datatype Site = Site(nodes: map<Id, MapNode>, edges: seq<Edge>, mapVersion: Id, blockage: Blockage)

  datatype World = World(
    agvs: map<Id, Agv>, locations: map<Id, Location>, pallets: map<Id, Id>, obstacles: map<Id, Obstacle>,
    snapshots: nat)

  datatype Mission = Mission(
    id: Id, proposalHash: Id, goal: Goal, pallet: Id, source: Id, destination: Id, agv: Id,
    route: seq<Id>, routeVersion: RouteVersion, status: MissionStatus, version: nat, index: int)

  /** The adapter's missions by identifier, and the mission started for each dispatch key. The key is
      derived from the proposal hash alone. */
  datatype Adapter = Adapter(missions: map<Id, Mission>, started: map<Id, Id>)

  datatype Plant = Plant(world: World, adapter: Adapter)

  // ---- The world ----

  function PoseAt(site: Site, node: Id): Option<Pose> {
    if node in site.nodes then Some(Pose(node, site.nodes[node].x, site.nodes[node].y)) else None
  }

  /** Every AGV stands on the map. A snapshot looks each of them up there. */
  ghost predicate OnMap(site: Site, w: World) {
    forall a :: a in w.agvs ==> w.agvs[a].node in site.nodes
  }

  /** The scenario's blockage can be recorded: its node is on the map and its fields pass the
      validator of obstacles. */
  predicate BlockageOk(site: Site) {
    site.blockage.node in site.nodes && 0.0 <= site.blockage.confidence <= 1.0 && site.blockage.ttl > 0.0
  }

  /** The snapshot taken after the counter has moved on. No group is reserved and nobody waits in the
      reference world. */
  function Capture(site: Site, w: World, now: real): Snapshot {
    Snapshot(w.snapshots, now, site.mapVersion, site.nodes, site.edges,
      map a | a in w.agvs :: w.agvs[a].(pose := PoseAt(site, w.agvs[a].node)),
      w.locations, w.pallets, w.obstacles, map[], [], map[])
  }

  function Counted(w: World): World { w.(snapshots := w.snapshots + 1) }

  function Blocked(site: Site, w: World, now: real): World {
    var b := site.blockage;
    w.(obstacles := w.obstacles[b.obstacle := Obstacle(b.node, b.confidence, now, b.ttl, 1)])
  }

  function SetAgv(w: World, a: Id, agv: Agv): World { w.(agvs := w.agvs[a := agv]) }

  // ---- Assignments to a location, each followed by the validator ----

  function AssignOccupancy(l: Location, load: Option<Id>): Option<Location> { Align(l.(occupancy := load)) }

  function AssignPallet(l: Location, load: Option<Id>): Option<Location> { Align(l.(pallet := load)) }

  /** Both assignments of one load to a location, in the program's order. */
  function AssignLoad(l: Location, load: Option<Id>): Option<Location> {
    match AssignOccupancy(l, load)
    case None => None
    case Some(l') => AssignPallet(l', load)
  }

  /** A location after both fields were assigned nothing; the validator never refuses that. */
  function Cleared(l: Location): Location { AssignLoad(l, None).value }

  predicate Aligned(l: Location) { l.occupancy == l.pallet }

  /** Clearing an occupied location field by field has no effect: the validator restores each field
      from the other. Loading succeeds exactly on an empty location or one that holds the load. */
  lemma LoadsAfterAssignment(l: Location, load: Id)
    requires Aligned(l)
    ensures AssignLoad(l, None) == Some(l)
    ensures AssignLoad(l, Some(load)).Some? <==> l.occupancy == None || l.occupancy == Some(load)
    ensures AssignLoad(l, Some(load)).Some? ==>
      AssignLoad(l, Some(load)) == Some(l.(occupancy := Some(load), pallet := Some(load)))
  {
  }

  // ---- The adapter ----

  /** The AGV takes a mission; without a pose it needs a node on the map to get one. */
  function Taking(agv: Agv, id: Id): Agv { agv.(status := AgvExecuting, mission := Some(id)) }

  function Stored(a: Adapter, m: Mission): Adapter {
    Adapter(a.missions[m.id := m.(status := EXECUTING)], a.started[m.proposalHash := m.id])
  }

  /** `start`: a dispatch key that was started before returns its mission unchanged. */
  function Start(site: Site, p: Plant, m: Mission): Option<(Plant, Mission)> {
    if m.proposalHash in p.adapter.started then
      var previous := p.adapter.started[m.proposalHash];
      if previous in p.adapter.missions then Some((p, p.adapter.missions[previous])) else None
    else if m.status != APPROVED || m.agv !in p.world.agvs then None
    else
      var agv := p.world.agvs[m.agv];
      if agv.pose.None? && agv.node !in site.nodes then None
      else
        var pose := if agv.pose.None? then PoseAt(site, agv.node) else agv.pose;
        Some((Plant(SetAgv(p.world, m.agv, Taking(agv, m.id).(pose := pose)), Stored(p.adapter, m)),
          m.(status := EXECUTING)))
  }

  /** The mission is stored before its AGV is looked up, and the AGV marked before its pose is. */
  function StartLeft(p: Plant, m: Mission): Plant {
    if m.proposalHash in p.adapter.started || m.status != APPROVED then p
    else if m.agv !in p.world.agvs then p.(adapter := Stored(p.adapter, m))
    else Plant(SetAgv(p.world, m.agv, Taking(p.world.agvs[m.agv], m.id)), Stored(p.adapter, m))
  }

  /** The next index; -1 on an empty route. */
  function NextIndex(m: Mission): int { if m.index + 1 < |m.route| - 1 then m.index + 1 else |m.route| - 1 }

  /** `advance` can be applied: the mission is executing, its AGV stands on the map, and everything it
      touches exists. */
  predicate CanAdvance(site: Site, p: Plant, id: Id) {
    && id in p.adapter.missions
    && var m := p.adapter.missions[id];
      && m.status == EXECUTING && 0 <= NextIndex(m)
      && m.agv in p.world.agvs && p.world.agvs[m.agv].node in site.nodes
      && m.route[NextIndex(m)] in site.nodes
      && (NextIndex(m) == |m.route| - 1 ==> CanDeliver(p.world, m))
  }

  predicate CanDeliver(w: World, m: Mission) {
    && m.source in w.locations && m.destination in w.locations && m.pallet in w.pallets
    && var cleared := w.locations[m.source := Cleared(w.locations[m.source])];
      AssignLoad(cleared[m.destination], Some(m.pallet)).Some?
  }

  function Delivered(w: World, m: Mission): World
    requires CanDeliver(w, m)
  {
    var cleared := w.locations[m.source := Cleared(w.locations[m.source])];
    w.(locations := cleared[m.destination := AssignLoad(cleared[m.destination], Some(m.pallet)).value],
       pallets := w.pallets[m.pallet := m.destination])
  }

  /** A delivery looks at locations and pallets alone. */
  lemma SameDelivery(w: World, w': World, m: Mission, m': Mission)
    requires w'.locations == w.locations && w'.pallets == w.pallets
    requires m'.source == m.source && m'.destination == m.destination && m'.pallet == m.pallet
    ensures CanDeliver(w', m') == CanDeliver(w, m) && UnloadLeft(w', m') == UnloadLeft(w', m)
    ensures CanDeliver(w, m) ==> Delivered(w', m') == Delivered(w', m)
  {
  }

  function Advance(site: Site, p: Plant, id: Id): Option<(Plant, Mission)> {
    if !CanAdvance(site, p, id) then None
    else
      var m := p.adapter.missions[id];
      var next := NextIndex(m);
      var moved := p.world.agvs[m.agv].(node := m.route[next], pose := PoseAt(site, m.route[next]));
      if next < |m.route| - 1 then
        var m' := m.(index := next);
        Some((Plant(SetAgv(p.world, m.agv, moved), p.adapter.(missions := p.adapter.missions[id := m'])), m'))
      else
        var m' := m.(index := next, status := COMPLETED);
        var w := SetAgv(p.world, m.agv, moved.(status := AgvIdle, mission := None));
        Some((Plant(Delivered(w, m), p.adapter.(missions := p.adapter.missions[id := m'])), m'))
  }

  /** The index moves before the AGV's own node is looked up; at the last node the mission is completed
      and the AGV idle before the locations are. */
  function AdvanceLeft(site: Site, p: Plant, id: Id): Plant {
    if id !in p.adapter.missions || p.adapter.missions[id].status != EXECUTING then p
    else
      var m := p.adapter.missions[id];
      var next := NextIndex(m);
      var m' := m.(index := next);
      var counted := p.(adapter := p.adapter.(missions := p.adapter.missions[id := m']));
      if m.agv !in p.world.agvs || p.world.agvs[m.agv].node !in site.nodes || next < 0 || m.route[next] !in site.nodes
      then counted
      else
        var moved := p.world.agvs[m.agv].(node := m.route[next], pose := PoseAt(site, m.route[next]));
        if next < |m.route| - 1 then counted.(world := SetAgv(p.world, m.agv, moved))
        else
          Plant(UnloadLeft(SetAgv(p.world, m.agv, moved.(status := AgvIdle, mission := None)), m),
            p.adapter.(missions := p.adapter.missions[id := m'.(status := COMPLETED)]))
  }

  /** How far a delivery gets. The validator runs after the assignment: a refused load stays assigned. */
  function UnloadLeft(w: World, m: Mission): World {
    if m.source !in w.locations || m.destination !in w.locations then w
    else
      var cleared := w.locations[m.source := Cleared(w.locations[m.source])];
      var loaded := AssignLoad(cleared[m.destination], Some(m.pallet));
      w.(locations := cleared[m.destination :=
        if loaded.Some? then loaded.value else cleared[m.destination].(occupancy := Some(m.pallet))])
  }

  /** `local_stop`, whatever the mission was doing. */
  function LocalStop(p: Plant, id: Id): Option<Plant> {
    if id !in p.adapter.missions || p.adapter.missions[id].agv !in p.world.agvs then None
    else
      var m := p.adapter.missions[id];
      Some(Plant(SetAgv(p.world, m.agv, p.world.agvs[m.agv].(status := AgvStopped)),
        p.adapter.(missions := p.adapter.missions[id := m.(status := SAFE_STOP)])))
  }

  /** The mission is stopped before its AGV is looked up. */
  function LocalStopLeft(p: Plant, id: Id): Plant {
    if id !in p.adapter.missions then p
    else p.(adapter := p.adapter.(missions := p.adapter.missions[id := p.adapter.missions[id].(status := SAFE_STOP)]))
  }

  function ReplaceRoute(p: Plant, id: Id, plan: Plan): Option<(Plant, Mission)> {
    if id !in p.adapter.missions || p.adapter.missions[id].status != SAFE_STOP
       || p.adapter.missions[id].agv !in p.world.agvs then None
    else
      var m := p.adapter.missions[id];
      var m' := m.(route := plan.nodes, routeVersion := plan.version, index := 0, status := EXECUTING);
      Some((Plant(SetAgv(p.world, m.agv, p.world.agvs[m.agv].(status := AgvExecuting)),
        p.adapter.(missions := p.adapter.missions[id := m'])), m'))
  }

  /** The mission has its new route before its AGV is looked up. */
  function ReplaceRouteLeft(p: Plant, id: Id, plan: Plan): Plant {
    if id !in p.adapter.missions || p.adapter.missions[id].status != SAFE_STOP then p
    else
      var m := p.adapter.missions[id].(route := plan.nodes, routeVersion := plan.version, index := 0,
        status := EXECUTING);
      p.(adapter := p.adapter.(missions := p.adapter.missions[id := m]))
  }

  // ---- What an advance does ----

  /** Everything a mission needs to be carried out exists. */
  ghost predicate Ready(site: Site, w: World, m: Mission) {
    && m.agv in w.agvs && w.agvs[m.agv].node in site.nodes && m.pallet in w.pallets
    && m.source in w.locations && m.destination in w.locations && m.source != m.destination
    && (forall l :: l in w.locations ==> Aligned(w.locations[l]))
    && w.locations[m.destination].occupancy in {None, Some(m.pallet)}
    && 0 <= NextIndex(m) && forall n :: n in m.route ==> n in site.nodes
  }

  /** Entities and places stay; only their contents change. */
  ghost predicate SameEntities(w: World, w': World) {
    && w'.agvs.Keys == w.agvs.Keys && w'.pallets.Keys == w.pallets.Keys && w'.locations.Keys == w.locations.Keys
    && forall l :: l in w.locations ==>
         w'.locations[l].node == w.locations[l].node && w'.locations[l].reachable == w.locations[l].reachable
  }

  /** The pallet is at the mission's destination by both records, and the AGV, idle, stands at node `n`. */
  ghost predicate Arrived(site: Site, w: World, m: Mission, n: Id) {
    && m.agv in w.agvs && w.agvs[m.agv].node == n && w.agvs[m.agv].pose == PoseAt(site, n)
    && w.agvs[m.agv].status == AgvIdle
    && m.destination in w.locations
    && w.locations[m.destination].occupancy == Some(m.pallet) == w.locations[m.destination].pallet
    && m.pallet in w.pallets && w.pallets[m.pallet] == m.destination
  }

  /** A ready executing mission can always advance. It moves its own AGV to the next node of its route
      and touches no other; it completes exactly at the last node, and then the load is delivered while
      the source location keeps showing it. */
  lemma {:induction false} AdvanceEffect(site: Site, p: Plant, id: Id)
    requires id in p.adapter.missions && p.adapter.missions[id].status == EXECUTING
    requires Ready(site, p.world, p.adapter.missions[id])
    ensures var m := p.adapter.missions[id];
      && CanAdvance(site, p, id)
      && var (p', m') := Advance(site, p, id).value;
        && m' == m.(index := NextIndex(m), status := if NextIndex(m) == |m.route| - 1 then COMPLETED else EXECUTING)
        && p'.adapter == p.adapter.(missions := p.adapter.missions[id := m'])
        && SameEntities(p.world, p'.world) && Ready(site, p'.world, m')
        && p'.world.agvs[m.agv].node == m.route[NextIndex(m)]
        && (forall a :: a in p.world.agvs && a != m.agv ==> p'.world.agvs[a] == p.world.agvs[a])
        && (m'.status == EXECUTING ==> p'.world.locations == p.world.locations && p'.world.pallets == p.world.pallets)
        && (m'.status == COMPLETED ==> Arrived(site, p'.world, m', m.route[|m.route| - 1]))
        && p'.world.locations[m.source] == p.world.locations[m.source]
        && (OnMap(site, p.world) ==> OnMap(site, p'.world))
        && (forall l :: l in p.world.locations && l != m.destination ==> p'.world.locations[l] == p.world.locations[l])
  {
    var m := p.adapter.missions[id];
    var n := m.route[NextIndex(m)];
    assert n in m.route;
    assert n in site.nodes;
    LoadsAfterAssignment(p.world.locations[m.source], m.pallet);
    LoadsAfterAssignment(p.world.locations[m.destination], m.pallet);
    assert p.world.locations[m.source := p.world.locations[m.source]] == p.world.locations;
  }

  // ---- Each call in one piece ----

  /** What a snapshot shows: the world's entities as they are, each AGV posed where it stands, and no
      reservations or waits. Snapshots are numbered from one. */
  lemma CaptureMeans(site: Site, w: World, now: real)
    ensures var taken := Capture(site, Counted(w), now);
      && taken.id == w.snapshots + 1 && taken.capturedAt == now
      && taken.mapVersion == site.mapVersion && taken.nodes == site.nodes && taken.edges == site.edges
      && taken.locations == w.locations && taken.pallets == w.pallets && taken.obstacles == w.obstacles
      && taken.reservedGroups == map[] && taken.reservations == [] && taken.waitFor == map[]
      && taken.agvs.Keys == w.agvs.Keys
      && forall a :: a in w.agvs ==>
           && taken.agvs[a] == w.agvs[a].(pose := taken.agvs[a].pose) && Posed(site, w.agvs[a].node, taken.agvs[a].pose)
  {
  }

  /** A pose at a node of the map, or none off it. */
  ghost predicate Posed(site: Site, node: Id, pose: Option<Pose>) {
    if node in site.nodes then pose == Some(Pose(node, site.nodes[node].x, site.nodes[node].y)) else pose == None
  }

  /** A stop of a known mission leaves it, and its AGV if there is one, stopped; and nothing else changed. */
  lemma StopMeans(p: Plant, id: Id)
    ensures LocalStop(p, id).Some? <==> id in p.adapter.missions && p.adapter.missions[id].agv in p.world.agvs
    ensures var p' := if LocalStop(p, id).Some? then LocalStop(p, id).value else LocalStopLeft(p, id);
      if id !in p.adapter.missions then p' == p
      else
        var m := p.adapter.missions[id];
        && p'.adapter.started == p.adapter.started
        && p'.adapter.missions == p.adapter.missions[id := m.(status := SAFE_STOP)]
        && p'.world == p.world.(agvs := p'.world.agvs)
        && p'.world.agvs ==
           if m.agv in p.world.agvs then p.world.agvs[m.agv := p.world.agvs[m.agv].(status := AgvStopped)]
           else p.world.agvs
  {
  }

  /** Only a stopped mission takes a new route. It then executes it from the start, with its AGV. */
  lemma RerouteMeans(p: Plant, id: Id, plan: Plan)
    ensures ReplaceRoute(p, id, plan).Some? <==>
      && id in p.adapter.missions && p.adapter.missions[id].status == SAFE_STOP
      && p.adapter.missions[id].agv in p.world.agvs
    ensures ReplaceRoute(p, id, plan).Some? ==>
      ReplaceRoute(p, id, plan).value.1 == ReplaceRoute(p, id, plan).value.0.adapter.missions[id]
    ensures var p' :=
        if ReplaceRoute(p, id, plan).Some? then ReplaceRoute(p, id, plan).value.0 else ReplaceRouteLeft(p, id, plan);
      if id !in p.adapter.missions || p.adapter.missions[id].status != SAFE_STOP then p' == p
      else
        var m := p.adapter.missions[id];
        && p'.adapter.started == p.adapter.started
        && p'.adapter.missions == p.adapter.missions[
             id := m.(status := EXECUTING, route := plan.nodes, routeVersion := plan.version, index := 0)]
        && p'.world == p.world.(agvs := p'.world.agvs)
        && p'.world.agvs ==
           if m.agv in p.world.agvs then p.world.agvs[m.agv := p.world.agvs[m.agv].(status := AgvExecuting)]
           else p.world.agvs
  {
  }

  /** A dispatch key that was used answers with its mission. A new one takes an approved mission, which then
      executes with its AGV, posed if it was not before. */
  lemma StartMeans(site: Site, p: Plant, m: Mission)
    ensures m.proposalHash in p.adapter.started ==>
      var previous := p.adapter.started[m.proposalHash];
      && StartLeft(p, m) == p
      && Start(site, p, m) ==
         if previous in p.adapter.missions then Some((p, p.adapter.missions[previous])) else None
    ensures m.proposalHash !in p.adapter.started && m.status != APPROVED ==>
      Start(site, p, m) == None && StartLeft(p, m) == p
    ensures m.proposalHash !in p.adapter.started && m.status == APPROVED ==>
      var p' := if Start(site, p, m).Some? then Start(site, p, m).value.0 else StartLeft(p, m);
      && p'.adapter == Adapter(p.adapter.missions[m.id := m.(status := EXECUTING)],
           p.adapter.started[m.proposalHash := m.id])
      && p'.world == p.world.(agvs := p'.world.agvs)
      && (Start(site, p, m).Some? ==> Start(site, p, m).value.1 == m.(status := EXECUTING))
      && (m.agv !in p.world.agvs ==> Start(site, p, m) == None && p'.world == p.world)
      && (m.agv in p.world.agvs ==>
            var agv := p.world.agvs[m.agv];
            var agv' := agv.(status := AgvExecuting, mission := Some(m.id));
            && (Start(site, p, m).Some? <==> agv.pose.Some? || agv.node in site.nodes)
            && p'.world.agvs.Keys == p.world.agvs.Keys
            && (forall a :: a in p.world.agvs && a != m.agv ==> p'.world.agvs[a] == p.world.agvs[a])
            && p'.world.agvs[m.agv] == agv'.(pose := p'.world.agvs[m.agv].pose)
            && if agv.pose.Some? then p'.world.agvs[m.agv].pose == agv.pose
               else Posed(site, agv.node, p'.world.agvs[m.agv].pose))
  {
  }

  /** The plant after an advance, or as one that raises leaves it. */
  function Advanced(site: Site, p: Plant, id: Id): Plant {
    if Advance(site, p, id).Some? then Advance(site, p, id).value.0 else AdvanceLeft(site, p, id)
  }

  /** The AGV can be driven to the node: both ends of the move are on the map. */
  ghost predicate Drivable(site: Site, w: World, m: Mission, next: int) {
    m.agv in w.agvs && w.agvs[m.agv].node in site.nodes && 0 <= next < |m.route| && m.route[next] in site.nodes
  }

  /** An advance of an executing mission moves its index on by one, at most to the last node, and drives its
      AGV there if it can. Any other mission is refused and nothing changes. */
  lemma {:induction false} AdvanceMoves(site: Site, p: Plant, id: Id)
    ensures id !in p.adapter.missions || p.adapter.missions[id].status != EXECUTING ==>
      Advance(site, p, id) == None && Advanced(site, p, id) == p
    ensures id in p.adapter.missions && p.adapter.missions[id].status == EXECUTING ==>
      var m, p' := p.adapter.missions[id], Advanced(site, p, id);
      var last := |m.route| - 1;
      var next := if m.index >= last then last else m.index + 1;
      var arrives := Drivable(site, p.world, m, next) && next == last;
      && p'.adapter.started == p.adapter.started
      && p'.adapter.missions ==
         p.adapter.missions[id := m.(index := next, status := if arrives then COMPLETED else EXECUTING)]
      && (Advance(site, p, id).Some? ==> Advance(site, p, id).value.1 == p'.adapter.missions[id])
      && p'.world.obstacles == p.world.obstacles && p'.world.snapshots == p.world.snapshots
      && (!Drivable(site, p.world, m, next) ==> Advance(site, p, id) == None && p'.world == p.world)
      && (Drivable(site, p.world, m, next) && next < last ==>
            Advance(site, p, id).Some? && p'.world.locations == p.world.locations &&
              p'.world.pallets == p.world.pallets)
      && (Drivable(site, p.world, m, next) ==>
            && p'.world.agvs.Keys == p.world.agvs.Keys
            && (forall a :: a in p.world.agvs && a != m.agv ==> p'.world.agvs[a] == p.world.agvs[a])
            && var agv, agv' := p.world.agvs[m.agv], p'.world.agvs[m.agv];
              && agv'.node == m.route[next] && Posed(site, m.route[next], agv'.pose)
              && agv' == agv.(node := agv'.node, pose := agv'.pose,
                   status := if arrives then AgvIdle else agv.status, mission := if arrives then None else agv.mission))
  {
    if id in p.adapter.missions && p.adapter.missions[id].agv in p.world.agvs {
      var m := p.adapter.missions[id];
      var next := NextIndex(m);
      if 0 <= next < |m.route| {
        var moved := p.world.agvs[m.agv].(node := m.route[next], pose := PoseAt(site, m.route[next]));
        DeliveryKeepsRest(SetAgv(p.world, m.agv, moved.(status := AgvIdle, mission := None)), m);
        hide Delivered, UnloadLeft;
      }
    }
  }

  lemma DeliveryKeepsRest(w: World, m: Mission)
    ensures UnloadLeft(w, m) == w.(locations := UnloadLeft(w, m).locations)
    ensures CanDeliver(w, m) ==>
      Delivered(w, m) == w.(locations := Delivered(w, m).locations, pallets := Delivered(w, m).pallets)
  {
  }

  /** An advance that arrives delivers, unless the destination holds another load or something it looks up is
      unknown. The source keeps what it shows. A load that is refused stays assigned to the first record. */
  lemma {:induction false} AdvanceUnloads(site: Site, p: Plant, id: Id)
    requires id in p.adapter.missions && p.adapter.missions[id].status == EXECUTING
    requires var m := p.adapter.missions[id];
      m.index >= |m.route| - 2 && Drivable(site, p.world, m, |m.route| - 1)
    requires forall l :: l in p.world.locations ==> Aligned(p.world.locations[l])
    ensures var m, p' := p.adapter.missions[id], Advanced(site, p, id);
      var before := p.world.locations;
      if m.source !in before || m.destination !in before then
        Advance(site, p, id) == None && p'.world.locations == before && p'.world.pallets == p.world.pallets
      else
        var there := before[m.destination];
        var fits := there.occupancy == None || there.occupancy == Some(m.pallet);
        && (Advance(site, p, id).Some? <==> fits && m.pallet in p.world.pallets)
        && p'.world.locations == before[m.destination := there.(
             occupancy := Some(m.pallet), pallet := if fits then Some(m.pallet) else there.pallet)]
        && p'.world.pallets ==
           if fits && m.pallet in p.world.pallets then p.world.pallets[m.pallet := m.destination] else p.world.pallets
  {
    var m := p.adapter.missions[id];
    if m.source in p.world.locations && m.destination in p.world.locations {
      LoadsAfterAssignment(p.world.locations[m.source], m.pallet);
      LoadsAfterAssignment(p.world.locations[m.destination], m.pallet);
      assert p.world.locations[m.source := p.world.locations[m.source]] == p.world.locations;
    }
  }

  /** The plant with a mission at the end of its route: completed, its AGV idle at the last node, and the
      pallet at the destination by every record. */
  function AtEnd(site: Site, p: Plant, id: Id): Plant
    requires id in p.adapter.missions
    requires var m := p.adapter.missions[id];
      m.route != [] && m.agv in p.world.agvs && m.destination in p.world.locations
  {
    var m := p.adapter.missions[id];
    var end := m.route[|m.route| - 1];
    Plant(
      p.world.(
        agvs := p.world.agvs[m.agv := p.world.agvs[m.agv].(
          node := end, pose := PoseAt(site, end), status := AgvIdle, mission := None)],
        locations := p.world.locations[m.destination := p.world.locations[m.destination].(
          occupancy := Some(m.pallet), pallet := Some(m.pallet))],
        pallets := p.world.pallets[m.pallet := m.destination]),
      p.adapter.(missions := p.adapter.missions[id := m.(index := |m.route| - 1, status := COMPLETED)]))
  }

  /** A ready mission's advance either arrives there, or leaves it to be reached all the same. */
  lemma {:induction false} AdvanceTowardsEnd(site: Site, p: Plant, id: Id)
    requires id in p.adapter.missions && p.adapter.missions[id].status == EXECUTING
    requires Ready(site, p.world, p.adapter.missions[id])
    ensures Advance(site, p, id).Some?
    ensures var (p', m') := Advance(site, p, id).value;
      && id in p'.adapter.missions && p'.adapter.missions[id].route == p.adapter.missions[id].route
      && p'.adapter.missions[id] == m' && m'.agv in p'.world.agvs && m'.destination in p'.world.locations
      && (if m'.status == COMPLETED then p' == AtEnd(site, p, id) else AtEnd(site, p', id) == AtEnd(site, p, id))
  {
    AdvanceEffect(site, p, id);
    var m := p.adapter.missions[id];
    LoadsAfterAssignment(p.world.locations[m.source], m.pallet);
    LoadsAfterAssignment(p.world.locations[m.destination], m.pallet);
    assert p.world.locations[m.source := p.world.locations[m.source]] == p.world.locations;
  }

  // ---- The same, in place ----

  class ReferenceWorld {
    const site: Site
    var agvs: map<Id, Agv>
    var locations: map<Id, Location>
    var pallets: map<Id, Id>
    var obstacles: map<Id, Obstacle>
    var snapshotSequence: nat

    ghost function View(): World
      reads this
    {
      World(agvs, locations, pallets, obstacles, snapshotSequence)
    }

    constructor (site: Site, agvs: map<Id, Agv>, locations: map<Id, Location>, pallets: map<Id, Id>)
      ensures this.site == site && View() == World(agvs, locations, pallets, map[], 0)
    {
      this.site, this.agvs, this.locations, this.pallets := site, agvs, locations, pallets;
      obstacles, snapshotSequence := map[], 0;
    }

    /** Raises, having counted, when an AGV stands off the map. */
    method TakeSnapshot(now: real) returns (taken: Option<Snapshot>)
      modifies this`snapshotSequence
      ensures View() == Counted(old(View()))
      ensures taken == if OnMap(site, old(View())) then Some(Capture(site, View(), now)) else None
    {
      snapshotSequence := snapshotSequence + 1;
      if a :| a in agvs && agvs[a].node !in site.nodes {
        return None;
      }
      var posed := map a | a in agvs :: agvs[a].(pose := PoseAt(site, agvs[a].node));
      return Some(Snapshot(snapshotSequence, now, site.mapVersion, site.nodes, site.edges, posed, locations, pallets,
        obstacles, map[], [], map[]));
    }

    method AddHeroBlockage(now: real) returns (ok: bool)
      modifies this`obstacles
      ensures ok == BlockageOk(site)
      ensures View() == if ok then Blocked(site, old(View()), now) else old(View())
    {
      var b := site.blockage;
      if b.node !in site.nodes || b.confidence < 0.0 || b.confidence > 1.0 || b.ttl <= 0.0 {
        return false;
      }
      obstacles := obstacles[b.obstacle := Obstacle(b.node, b.confidence, now, b.ttl, 1)];
      return true;
    }
  }

  class SimulatorAdapter {
    const world: ReferenceWorld
    var missions: map<Id, Mission>
    var idempotencyIndex: map<Id, Id>

    ghost function View(): Plant
      reads this, world
    {
      Plant(world.View(), Adapter(missions, idempotencyIndex))
    }

    constructor (world: ReferenceWorld)
      ensures this.world == world && missions == map[] && idempotencyIndex == map[]
    {
      this.world := world;
      missions, idempotencyIndex := map[], map[];
    }

    method StartMission(m: Mission) returns (r: Option<Mission>)
      modifies this, world
      ensures match Start(world.site, old(View()), m)
        case None => r == None && View() == StartLeft(old(View()), m)
        case Some((p, m')) => r == Some(m') && View() == p
    {
      if m.proposalHash in idempotencyIndex {
        var previous := idempotencyIndex[m.proposalHash];
        if previous !in missions {
          return None;
        }
        return Some(missions[previous]);
      }
      if m.status != APPROVED {
        return None;
      }
      var stored := m.(status := EXECUTING);
      missions := missions[stored.id := stored];
      idempotencyIndex := idempotencyIndex[stored.proposalHash := stored.id];
      if m.agv !in world.agvs {
        return None;
      }
      var agv := world.agvs[m.agv].(status := AgvExecuting, mission := Some(stored.id));
      world.agvs := world.agvs[m.agv := agv];
      if agv.pose.None? {
        if agv.node !in world.site.nodes {
          return None;
        }
        world.agvs := world.agvs[m.agv := agv.(pose := PoseAt(world.site, agv.node))];
      }
      return Some(stored);
    }

    method Deliver(m: Mission) returns (ok: bool)
      modifies world
      ensures ok == CanDeliver(old(world.View()), m)
      ensures world.View() == if ok then Delivered(old(world.View()), m) else UnloadLeft(old(world.View()), m)
    {
      if m.source !in world.locations || m.destination !in world.locations {
        return false;
      }
      world.locations := world.locations[m.source := Cleared(world.locations[m.source])];
      var before := world.locations[m.destination];
      var occupied := AssignOccupancy(before, Some(m.pallet));
      if occupied.None? {
        world.locations := world.locations[m.destination := before.(occupancy := Some(m.pallet))];
        return false;
      }
      world.locations := world.locations[m.destination := AssignPallet(occupied.value, Some(m.pallet)).value];
      if m.pallet !in world.pallets {
        return false;
      }
      world.pallets := world.pallets[m.pallet := m.destination];
      return true;
    }

    /** The mission is at its last node: it is completed, its AGV idle, and then the load delivered. */
    method Arrive(id: Id) returns (r: Option<Mission>)
      requires id in missions && missions[id].agv in world.agvs
      modifies this, world
      ensures var m := old(missions)[id];
        var idle := SetAgv(old(world.View()), m.agv, old(world.agvs)[m.agv].(status := AgvIdle, mission := None));
        && missions == old(missions)[id := m.(status := COMPLETED)] && idempotencyIndex == old(idempotencyIndex)
        && if CanDeliver(idle, m) then r == Some(m.(status := COMPLETED)) && world.View() == Delivered(idle, m)
           else r == None && world.View() == UnloadLeft(idle, m)
    {
      var m := missions[id].(status := COMPLETED);
      missions := missions[id := m];
      world.agvs := world.agvs[m.agv := world.agvs[m.agv].(status := AgvIdle, mission := None)];
      SameDelivery(world.View(), world.View(), old(missions)[id], m);
      hide CanDeliver, Delivered, UnloadLeft;
      var delivered := Deliver(m);
      r := if delivered then Some(m) else None;
    }

    method AdvanceMission(id: Id) returns (r: Option<Mission>)
      modifies this, world
      ensures match Advance(world.site, old(View()), id)
        case None => r == None && View() == AdvanceLeft(world.site, old(View()), id)
        case Some((p, m')) => r == Some(m') && View() == p
    {
      if id !in missions || missions[id].status != EXECUTING {
        return None;
      }
      var m := missions[id];
      m := m.(index := NextIndex(m));
      missions := missions[id := m];
      if m.agv !in world.agvs || world.agvs[m.agv].node !in world.site.nodes
         || m.index < 0 || m.route[m.index] !in world.site.nodes
      {
        return None;
      }
      var agv := world.agvs[m.agv].(node := m.route[m.index], pose := PoseAt(world.site, m.route[m.index]));
      world.agvs := world.agvs[m.agv := agv];
      if m.index < |m.route| - 1 {
        return Some(m);
      }
      ghost var idle := SetAgv(old(world.View()), m.agv, agv.(status := AgvIdle, mission := None));
      assert idle == SetAgv(world.View(), m.agv, agv.(status := AgvIdle, mission := None));
      SameDelivery(old(world.View()), idle, old(missions)[id], m);
      hide CanDeliver, Delivered, UnloadLeft;
      r := Arrive(id);
    }

    method StopLocally(id: Id, source: string) returns (ok: bool)
      modifies this, world
      ensures match (if source == "" then None else LocalStop(old(View()), id))
        case None => !ok && View() == if source == "" then old(View()) else LocalStopLeft(old(View()), id)
        case Some(p) => ok && View() == p
    {
      if source == "" || id !in missions {
        return false;
      }
      var m := missions[id];
      missions := missions[id := m.(status := SAFE_STOP)];
      if m.agv !in world.agvs {
        return false;
      }
      world.agvs := world.agvs[m.agv := world.agvs[m.agv].(status := AgvStopped)];
      return true;
    }

    method Reroute(id: Id, plan: Plan) returns (r: Option<Mission>)
      modifies this, world
      ensures match ReplaceRoute(old(View()), id, plan)
        case None => r == None && View() == ReplaceRouteLeft(old(View()), id, plan)
        case Some((p, m')) => r == Some(m') && View() == p
    {
      if id !in missions || missions[id].status != SAFE_STOP {
        return None;
      }
      var m := missions[id].(route := plan.nodes, routeVersion := plan.version, index := 0, status := EXECUTING);
      missions := missions[id := m];
      if m.agv !in world.agvs {
        return None;
      }
      world.agvs := world.agvs[m.agv := world.agvs[m.agv].(status := AgvExecuting)];
      return Some(m);
    }
  }
}
