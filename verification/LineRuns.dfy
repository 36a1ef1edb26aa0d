/** Concrete runs of the service, from its empty state, on a line of three nodes. They show that the
    states which the theorems about runs speak of are reached: stopped, completed, stranded, and executing
    over a stopped mission; and that what the program does not prevent does happen. */
module LineRuns {
  import opened Domain
  import opened Workflow
  import opened RoutePlanner
  import opened Planning
  import opened Safety
  import Plant
  import opened Sessions
  import opened SessionInvariant
  import opened SessionEffects
  import opened SessionOutcomes
  import opened SessionMotion
  import opened SessionRaises
  import opened SessionLives
  import opened Service
  import opened ServiceRuns
  import opened ServiceTheorems
  import opened HeroRun
  import opened HeroService

  const LINE_EDGES: seq<Edge> := [MapEdge(1, 2, 1.0, 1.0, 1, false), MapEdge(2, 3, 1.0, 1.0, 2, false)]

  const LINE_NODE := MapNode(0.0, 0.0, "aisle", {"AGV"})

  /** A mission on the line: to which node, which node the blockage names, where the AGV stands at first,
      and when the replan is made. */
  datatype Line = Line(goal: Id, blocked: Id, place: Id, replanAt: real)

  const PLAIN := Line(3, 4, 1, 2.0)
  const SHORT := Line(2, 4, 1, 2.0)
  const ASIDE := Line(3, 4, 4, 2.0)
  const OFF_MAP := Line(3, 99, 1, 2.0)
  const LATE := Line(3, 3, 1, 100.0)
  const NOWHERE := Line(9, 4, 1, 2.0)

  /** Three nodes in a row, one-way, and a fourth aside. */
  function LineSite(x: Line): Site {
    Plant.Site(map[1 := LINE_NODE, 2 := LINE_NODE, 3 := LINE_NODE, 4 := LINE_NODE], LINE_EDGES, 0,
      Plant.Blockage(9, x.blocked, 1.0, 30.0))
  }

  /** A pallet at the first node, an AGV, and a free location at each of the others. */
  function LineWorld(x: Line): Plant.World {
    Plant.World(map[7 := Agv(x.place, AgvIdle, 100.0, true, None, None)],
      map[1 := Location(1, true, Some(5), Some(5)), 2 := Location(2, true, None, None),
        3 := Location(3, true, None, None)],
      map[5 := 1], map[], 0)
  }

  function LineScenario(x: Line): Scenario { Scenario(LineSite(x), LineWorld(x)) }

  function LineIntent(goal: Id): Intent { Intent(5, 1, goal, None, []) }

  /** A stretch of the line. */
  predicate Stretch(start: Id, goal: Id) { 1 <= start < goal <= 3 }

  function LineNodes(start: Id, goal: Id): seq<Id>
    requires Stretch(start, goal)
  {
    if start == 2 then [2, 3] else if goal == 2 then [1, 2] else [1, 2, 3]
  }

  function LineAlong(start: Id, goal: Id): seq<Edge>
    requires Stretch(start, goal)
  {
    if start == 2 then [LINE_EDGES[1]] else if goal == 2 then [LINE_EDGES[0]] else LINE_EDGES
  }

  function LineGroups(start: Id, goal: Id): seq<Id>
    requires Stretch(start, goal)
  {
    if start == 2 then [2] else if goal == 2 then [1] else [1, 2]
  }

  /** On the line every walk is a stretch of it. */
  lemma LineWalks(forbidden: set<Id>, start: Id, goal: Id, p: seq<Id>, es: seq<Edge>)
    requires Stretch(start, goal) && Walk(LINE_EDGES, forbidden, start, p, es) && Last(p) == goal
    ensures p == LineNodes(start, goal) && es == LineAlong(start, goal)
  {
    if |es| > 0 {
      assert Hop(LINE_EDGES, forbidden, p, es, 0);
    }
    if |es| > 1 {
      assert Hop(LINE_EDGES, forbidden, p, es, 1);
    }
    if |es| > 2 && Hop(LINE_EDGES, forbidden, p, es, 2) {
      assert false;
    }
  }

  lemma LineRoute(forbidden: set<Id>, start: Id, goal: Id)
    requires Stretch(start, goal) && 2 !in forbidden && 3 !in forbidden
    ensures Answer(Problem(LINE_EDGES, forbidden, start, goal), Some((LineNodes(start, goal), LineAlong(start, goal))))
  {
    var nodes, along := LineNodes(start, goal), LineAlong(start, goal);
    forall i | 0 <= i < |along| ensures Hop(LINE_EDGES, forbidden, nodes, along, i) {
    }
    forall p, es | Walk(LINE_EDGES, forbidden, start, p, es) && Last(p) == goal
      ensures NoLater(Length(along), nodes, Length(es), p)
    {
      LineWalks(forbidden, start, goal, p, es);
      LexTotal(nodes, nodes);
    }
  }

  /** A snapshot of the line with AGV 7, at the start or stopped on its way, fit to carry the pallet, and
      nothing in the way. */
  ghost predicate ClearLine(snapshot: Snapshot, at: Id) {
    && snapshot.nodes == LineSite(PLAIN).nodes && snapshot.edges == LINE_EDGES && snapshot.mapVersion == 0
    && snapshot.agvs.Keys == {7} && snapshot.agvs[7].battery == 100.0 && snapshot.agvs[7].carriesPallets
    && snapshot.locations == LineWorld(PLAIN).locations && snapshot.pallets == LineWorld(PLAIN).pallets
    && (forall o :: o in snapshot.obstacles && Blocks(snapshot.obstacles[o], snapshot.capturedAt) ==>
          snapshot.obstacles[o].node == 4)
    && snapshot.reservedGroups == map[] && snapshot.reservations == [] && snapshot.waitFor == map[]
    && snapshot.agvs[7].status == (if at == 1 then AgvIdle else AgvStopped)
  }

  function LinePlan(start: Id, goal: Id): Plan
    requires Stretch(start, goal)
  {
    var nodes, groups, distance := LineNodes(start, goal), LineGroups(start, goal), (goal - start) as real;
    RoutePlan(RouteVersion(0, 7, nodes, groups, distance), 0, 7, nodes, groups,
      distance, distance * ENERGY_PER_METER, distance, 1)
  }

  lemma LineSums(start: Id, goal: Id)
    requires Stretch(start, goal)
    ensures var along := LineAlong(start, goal);
      && Length(along) == Duration(along) == (goal - start) as real && Groups(along) == LineGroups(start, goal)
  {
    assert LINE_EDGES[..1] == [LINE_EDGES[0]];
    assert Length([LINE_EDGES[0]]) == Length([LINE_EDGES[1]]) == 1.0;
    assert Duration([LINE_EDGES[0]]) == Duration([LINE_EDGES[1]]) == 1.0;
  }

  lemma LineSelects(snapshot: Snapshot, start: Id, goal: Id, force: Option<Id>)
    requires ClearLine(snapshot, start) && force == if start == 1 then None else Some(7)
    ensures |Candidates(snapshot, LineIntent(goal), force)| == 1 && Selected(snapshot, LineIntent(goal), force, 7)
    ensures 2 !in Avoided(snapshot) && 3 !in Avoided(snapshot)
  {
    assert Candidates(snapshot, LineIntent(goal), force) == {7};
  }

  lemma LinePlans(snapshot: Snapshot, start: Id, goal: Id)
    requires ClearLine(snapshot, start) && Stretch(start, goal)
    ensures Plans(snapshot, LineIntent(goal),
      if start == 1 then None else Some(start), if start == 1 then None else Some(7),
      Planned(LinePlan(start, goal)))
  {
    var from, force := if start == 1 then None else Some(start), if start == 1 then None else Some(7);
    LineSums(start, goal);
    LineSelects(snapshot, start, goal, force);
    LineRoute(Avoided(snapshot), start, goal);
    hide Answer, Length, Duration, Groups, Selected, Candidates;
    assert PlanOf(snapshot, LineIntent(goal), from, force, LinePlan(start, goal), LineAlong(start, goal));
  }

  lemma LineIsSafe(snapshot: Snapshot, start: Id, goal: Id)
    requires ClearLine(snapshot, start) && Stretch(start, goal)
    ensures SafeRoute(LineIntent(goal), LinePlan(start, goal), snapshot)
  {
    assert Follow(snapshot.waitFor, 7, 1) == None;
  }

  /** The line's missions that are planned. */
  predicate Plannable(x: Line) { x.goal in {2, 3} && x.place in {1, 2, 3, 4} }

  /** And those that lead to the end, past a blockage aside or one that has expired. */
  predicate Passable(x: Line) {
    && x.goal == 3 && x.place in {1, 2, 3, 4} && 1.0 <= x.replanAt < 900.0
    && (x.blocked == 4 || (x.blocked == 3 && x.replanAt > 31.0))
  }

  /** Only a mission to the third node is ever replanned. */
  function LineHero(x: Line): Hero
    requires x.goal in {2, 3}
  {
    Hero(10, 0.0, LinePlan(1, x.goal),
      IssueProposal(11, LineIntent(x.goal), LinePlan(1, x.goal), 1, 12),
      13, 14, 15, 0.0, 0.0, 0.0, "operator", 1.0, x.replanAt, LinePlan(2, 3), x.replanAt, x.replanAt)
  }

  lemma LineIsPromising(x: Line)
    requires Plannable(x)
    ensures Promising(LineSite(x), LineWorld(x), LineIntent(x.goal), LineHero(x))
  {
    hide Plans, SafeRoute;
    var taken := Taken(LineSite(x), LineWorld(x), 0.0);
    assert ClearLine(taken, 1);
    LinePlans(taken, 1, x.goal);
    LineIsSafe(taken, 1, x.goal);
  }

  /** Where the stopped mission of the hero `h` has a way on. */
  lemma LineHasAWayOn(x: Line, from: Outset, h: Hero)
    requires Passable(x) && h.replan == LinePlan(2, 3) && h.plan.agv == 7 && 7 in from.world.agvs
    requires Lasts(h, h.checkedAt) && h.proposal.goal == LineIntent(3)
    requires var w := StoppedWorld(LineSite(x), from, h);
      ClearLine(Taken(LineSite(x), w, h.replanAt), 2) && w.agvs[7].node == 2
    ensures Fit(LineSite(x), h, from, 4)
  {
    hide Plans, SafeRoute;
    var later := Taken(LineSite(x), StoppedWorld(LineSite(x), from, h), h.replanAt);
    LinePlans(later, 2, 3);
    LineIsSafe(later, 2, 3);
  }

  lemma LineStops(x: Line)
    requires Passable(x)
    ensures var h, w := LineHero(x), StoppedWorld(LineSite(x), Anew(LineWorld(x)), LineHero(x));
      ClearLine(Taken(LineSite(x), w, h.replanAt), 2) && w.agvs[7].node == 2
  {
  }

  /** Each stage of a passable mission is fit, and each but the stop and what follows of a planned one. */
  lemma LineIsFit(x: Line, stage: nat)
    requires Plannable(x) && (stage == 2 ==> x.goal == 3) && (stage > 2 ==> Passable(x))
    ensures Fit(LineSite(x), LineHero(x), Anew(LineWorld(x)), stage)
  {
    hide Recoverable, StoppedWorld;
    if stage == 4 {
      LineStops(x);
      LineHasAWayOn(x, Anew(LineWorld(x)), LineHero(x));
    }
  }

  // ---- Runs ----

  /** The service with one new session. */
  ghost function Created(x: Line): ServiceState { Apply(LineScenario(x), EMPTY, Create(1, LineIntent(x.goal))).0 }

  lemma CreatedReaches(x: Line)
    requires Plannable(x)
    ensures ScenarioOk(LineScenario(x)) && ServiceOk(LineSite(x), Created(x))
    ensures Reaches(LineScenario(x), Created(x), 1, LineHero(x), Anew(LineWorld(x)), 0, 1)
  {
    hide ServiceOk, Promising, Extends;
    CreatedIsOk(x);
    LineIsPromising(x);
  }

  lemma CreatedIsOk(x: Line)
    ensures ScenarioOk(LineScenario(x)) && ServiceOk(LineSite(x), Created(x))
  {
    hide ServiceOk, Extends;
    EmptyOk(LineSite(x));
    CreateKeeps(LineScenario(x), EMPTY, 1, LineIntent(x.goal));
  }

  /** One run after another is a run. */
  lemma {:induction false} RunsJoin(sc: Scenario, v: ServiceState, first: seq<Call>, second: seq<Call>)
    requires Legal(sc, v, first) && Legal(sc, After(sc, v, first), second)
    ensures Legal(sc, v, first + second) && After(sc, v, first + second) == After(sc, After(sc, v, first), second)
  {
    hide Apply, Admissible;
    if second == [] {
      assert first + second == first;
    } else {
      var before, last := second[..|second| - 1], second[|second| - 1];
      RunsJoin(sc, v, first, before);
      OneMore(sc, v, first + before, last);
      assert first + second == first + before + [last];
    }
  }

  /** A run from the created session is a run from the empty service. */
  lemma {:induction false} RunFromEmpty(x: Line, calls: seq<Call>)
    requires ScenarioOk(LineScenario(x)) && Legal(LineScenario(x), Created(x), calls)
    ensures Reached(LineScenario(x), [Create(1, LineIntent(x.goal))] + calls, After(LineScenario(x), Created(x), calls))
  {
    hide Apply, Admissible;
    var sc, create := LineScenario(x), Create(1, LineIntent(x.goal));
    CreatingIsAdmissible(x);
    NoCalls(sc, EMPTY);
    OneMore(sc, EMPTY, [], create);
    assert [] + [create] == [create];
    RunsJoin(sc, EMPTY, [create], calls);
  }

  lemma CreatingIsAdmissible(x: Line)
    ensures Admissible(LineScenario(x), EMPTY, Create(1, LineIntent(x.goal)))
  {
  }

  function LineCalls(x: Line, n: nat): seq<Call>
    requires x.goal in {2, 3} && n <= 6
  {
    HeroCalls(LineHero(x), 1, 0, 1, n)
  }

  /** The first `n` requests commit: all six of a passable mission, and of any other up to the start. */
  lemma LineRunReaches(x: Line, n: nat)
    requires Plannable(x) && n <= 6 && (n > 2 ==> x.goal == 3) && (n > 3 ==> Passable(x))
    ensures ScenarioOk(LineScenario(x)) && Legal(LineScenario(x), Created(x), LineCalls(x, n))
    ensures AllCommit(LineScenario(x), Created(x), LineCalls(x, n), 1, 0)
    ensures ServiceOk(LineSite(x), After(LineScenario(x), Created(x), LineCalls(x, n)))
    ensures Reaches(LineScenario(x), After(LineScenario(x), Created(x), LineCalls(x, n)), 1, LineHero(x),
      Anew(LineWorld(x)), n, 1 + n)
    ensures Reached(LineScenario(x), [Create(1, LineIntent(x.goal))] + LineCalls(x, n),
      After(LineScenario(x), Created(x), LineCalls(x, n)))
  {
    hide ServiceOk, Reaches, Fit, AllCommit, Legal, After, Extends;
    CreatedReaches(x);
    forall stage | 0 <= stage < n ensures Fit(LineSite(x), LineHero(x), Anew(LineWorld(x)), stage) {
      LineIsFit(x, stage);
    }
    HeroRunDelivers(LineScenario(x), Created(x), 1, LineHero(x), Anew(LineWorld(x)), 0, 1, n);
    RunKeeps(LineScenario(x), Created(x), LineCalls(x, n));
    RunFromEmpty(x, LineCalls(x, n));
  }

  /** A run that creates an intent and makes the six requests, all of which commit, ends COMPLETED, and
      the source location still shows the pallet. */
  lemma {:induction false} SomeRunCompletes() returns (calls: seq<Call>, v: ServiceState)
    ensures Reached(LineScenario(PLAIN), calls, v) && |calls| == 7
    ensures AllCommit(LineScenario(PLAIN), Created(PLAIN), calls[1..], 1, 0)
    ensures 1 in v.sessions && v.sessions[1].flow.current == COMPLETED && Delivered(LineSite(PLAIN), v.sessions[1])
    ensures var locations := v.sessions[1].plant.world.locations;
      && v.sessions[1].intent.source == 1 && v.sessions[1].intent.destination == 3
      && 1 in locations && locations[1].occupancy == Some(5) && 3 in locations && locations[3].occupancy == Some(5)
  {
    hide ServiceOk, AllCommit, Legal, After, Delivered;
    var sc := LineScenario(PLAIN);
    LineRunReaches(PLAIN, 6);
    calls, v := [Create(1, LineIntent(3))] + LineCalls(PLAIN, 6), After(sc, Created(PLAIN), LineCalls(PLAIN, 6));
    assert calls[1..] == LineCalls(PLAIN, 6);
    SameIntent(PLAIN, LineCalls(PLAIN, 6));
    SourceKeepsItsLoad(sc, calls, v, 1);
  }

  lemma SameIntent(x: Line, calls: seq<Call>)
    requires Legal(LineScenario(x), Created(x), calls)
    ensures var v := After(LineScenario(x), Created(x), calls);
      1 in v.sessions && v.sessions[1].intent == LineIntent(x.goal)
  {
    hide ServiceOk, Legal, After, MovesLogged, KeepsMission, KeepsLoads;
    CreatedIsOk(x);
    RunKeeps(LineScenario(x), Created(x), calls);
  }

  /** The AGV stands at a node that no edge touches. The start commits all the same, and the AGV is at
      the second node of the route. */
  lemma {:induction false} SomeRunDisplaces() returns (calls: seq<Call>, v: ServiceState)
    ensures Reached(LineScenario(ASIDE), calls, v) && |calls| == 4
    ensures AllCommit(LineScenario(ASIDE), Created(ASIDE), calls[1..], 1, 0)
    ensures LineWorld(ASIDE).agvs[7].node == 4 && forall n :: !Joined(LINE_EDGES, 4, n)
    ensures 1 in v.sessions && 7 in v.sessions[1].plant.world.agvs && v.sessions[1].plant.world.agvs[7].node == 2
  {
    hide ServiceOk, AllCommit, Legal, After, Joined;
    LineRunReaches(ASIDE, 3);
    calls := [Create(1, LineIntent(3))] + LineCalls(ASIDE, 3);
    v := After(LineScenario(ASIDE), Created(ASIDE), LineCalls(ASIDE, 3));
    assert calls[1..] == LineCalls(ASIDE, 3);
    NothingLeavesAside();
    StartedAtSecond(v.sessions[1]);
  }

  lemma NothingLeavesAside()
    ensures forall n :: !Joined(LINE_EDGES, 4, n)
  {
  }

  lemma StartedAtSecond(s: Session)
    requires AtStage(LineSite(ASIDE), s, LineHero(ASIDE), Anew(LineWorld(ASIDE)), 3)
    ensures 7 in s.plant.world.agvs && s.plant.world.agvs[7].node == 2
  {
    hide UnderWay;
  }

  /** Up to the stop, the plain run leaves the mission halted. */
  lemma {:induction false} SomeRunHalts() returns (calls: seq<Call>, v: ServiceState)
    ensures Reached(LineScenario(PLAIN), calls, v) && 1 in v.sessions && Halted(v.sessions[1])
    ensures v.sessions[1].flow.current == SAFE_STOP
  {
    hide ServiceOk, AllCommit, Legal, After;
    LineRunReaches(PLAIN, 4);
    calls := [Create(1, LineIntent(3))] + LineCalls(PLAIN, 4);
    v := After(LineScenario(PLAIN), Created(PLAIN), LineCalls(PLAIN, 4));
    assert SessionOk(LineSite(PLAIN), v.sessions[1]) by {
      SessionIsOk(v);
    }
    StoppedIsHalted(LineSite(PLAIN), v.sessions[1]);
  }

  lemma SessionIsOk(v: ServiceState)
    requires ServiceOk(LineSite(PLAIN), v) && 1 in v.sessions
    ensures SessionOk(LineSite(PLAIN), v.sessions[1])
  {
  }

  lemma StoppedIsHalted(site: Site, s: Session)
    requires SessionOk(site, s) && s.flow.current == SAFE_STOP
    ensures Halted(s)
  {
  }

  /** The blockage names a node that is not on the map: the stop fails, and the mission goes on
      executing. */
  lemma {:induction false} SomeRunCannotStop() returns (calls: seq<Call>, v: ServiceState)
    ensures Reached(LineScenario(OFF_MAP), calls, v) && |calls| == 5
    ensures var sc := LineScenario(OFF_MAP);
      && AllCommit(sc, Created(OFF_MAP), calls[1..4], 1, 0)
      && Apply(sc, After(sc, EMPTY, calls[..4]), calls[4]).1 == Failed(1, BadBlockage)
    ensures 1 in v.sessions && v.sessions[1].flow.current == EXECUTING
  {
    hide ServiceOk, AllCommit, Legal, After, Reaches, Handle, Admissible;
    var sc, h := LineScenario(OFF_MAP), LineHero(OFF_MAP);
    LineRunReaches(OFF_MAP, 3);
    var before, stop := LineCalls(OFF_MAP, 3), Ask(RequestAt(h, 1, 3, 4));
    UnrecordableStopFails(sc, After(sc, Created(OFF_MAP), before), 1, h, Anew(LineWorld(OFF_MAP)), 4);
    OneMore(sc, Created(OFF_MAP), before, stop);
    RunFromEmpty(OFF_MAP, before + [stop]);
    calls := [Create(1, LineIntent(3))] + (before + [stop]);
    v := After(sc, Created(OFF_MAP), before + [stop]);
    assert calls[..4] == [Create(1, LineIntent(3))] + before && calls[1..4] == before;
  }

  /** The blockage is on the only way on, but has expired when the replan is made: the replan commits and
      leads through the blocked node, and the mission is completed there. */
  lemma {:induction false} SomeRunMeetsBlockage() returns (calls: seq<Call>, v: ServiceState)
    ensures Reached(LineScenario(LATE), calls, v) && |calls| == 7
    ensures AllCommit(LineScenario(LATE), Created(LATE), calls[1..], 1, 0)
    ensures var u := After(LineScenario(LATE), EMPTY, calls[..6]);
      && Reached(LineScenario(LATE), calls[..6], u) && 1 in u.sessions
      && Noted(LineSite(LATE), u.sessions[1].plant.world, 1.0) && u.sessions[1].replan.Some?
      && LineSite(LATE).blockage.node in u.sessions[1].replan.value.plan.nodes
    ensures 1 in v.sessions && v.sessions[1].flow.current == COMPLETED
  {
    hide ServiceOk, AllCommit, Legal, After, Delivered;
    var sc := LineScenario(LATE);
    LineRunReaches(LATE, 5);
    LineRunReaches(LATE, 6);
    calls, v := [Create(1, LineIntent(3))] + LineCalls(LATE, 6), After(sc, Created(LATE), LineCalls(LATE, 6));
    assert calls[1..] == LineCalls(LATE, 6);
    assert calls[..6] == [Create(1, LineIntent(3))] + LineCalls(LATE, 5);
    ReplannedThrough(After(sc, Created(LATE), LineCalls(LATE, 5)).sessions[1]);
  }

  lemma ReplannedThrough(s: Session)
    requires AtStage(LineSite(LATE), s, LineHero(LATE), Anew(LineWorld(LATE)), 5)
    ensures Noted(LineSite(LATE), s.plant.world, 1.0) && s.replan.Some? && 3 in s.replan.value.plan.nodes
  {
    hide UnderWay;
    assert s.replan.value.plan.nodes[1] == 3;
  }

  // ---- A renewed approval ----

  const AGAIN := Renewal(20, 21, 22, 2.0, 2.0, 2.0)

  /** The stages that follow it, from the second stop on. */
  function LineAgain(): Hero {
    LineHero(PLAIN).(key := 30, token := 21, issuedAt := 2.0, sealedAt := 2.0, startAt := 2.0, stopAt := 3.0,
      replanAt := 4.0, checkedAt := 4.0, resumeAt := 4.0)
  }

  /** The run up to the replan, the renewed approval and the start that fails. */
  function HollowCalls(): seq<Call> {
    LineCalls(PLAIN, 5) + [Ask(RenewApproval(LineHero(PLAIN), AGAIN, 6))] +
      [Ask(RenewStart(LineHero(PLAIN), AGAIN, 7))]
  }

  /** The world in which it leaves the session. */
  function HollowWorld(): Plant.World {
    Plant.Counted(StoppedWorld(LineSite(PLAIN), Anew(LineWorld(PLAIN)), LineHero(PLAIN)))
  }

  lemma HollowReached()
    ensures var sc := LineScenario(PLAIN);
      var w := After(sc, Created(PLAIN), HollowCalls()[..6]);
      var v := After(sc, Created(PLAIN), HollowCalls());
      && ScenarioOk(sc) && Legal(sc, Created(PLAIN), HollowCalls()[..6]) && Legal(sc, Created(PLAIN), HollowCalls())
      && ServiceOk(LineSite(PLAIN), v)
      && Apply(sc, w, HollowCalls()[6]).1 == Failed(1, AdapterFailed) && 1 in v.sessions && Hollow(v.sessions[1])
      && Reaches(sc, v, 1, LineAgain(), Midway(HollowWorld()), 3, 7)
  {
    hide ServiceOk, AllCommit, Legal, After, Hollow, Handle, Admissible, Extends, UnderWay, HollowWorld, StoppedWorld,
      HeroCalls;
    CreatedIsOk(PLAIN);
    var sc, h := LineScenario(PLAIN), LineHero(PLAIN);
    LineRunReaches(PLAIN, 5);
    var before, u := LineCalls(PLAIN, 5), After(sc, Created(PLAIN), LineCalls(PLAIN, 5));
    FreshRenewal();
    ReplannedWorld(u.sessions[1]);
    RenewalStrands(sc, u, 1, h, Anew(LineWorld(PLAIN)), 6, AGAIN, LineAgain());
    var approve, start := Ask(RenewApproval(h, AGAIN, 6)), Ask(RenewStart(h, AGAIN, 7));
    OneMore(sc, Created(PLAIN), before, approve);
    OneMore(sc, Created(PLAIN), before + [approve], start);
    assert HollowCalls()[..6] == before + [approve];
    RunKeeps(sc, Created(PLAIN), HollowCalls());
  }

  lemma ReplannedWorld(s: Session)
    requires AtStage(LineSite(PLAIN), s, LineHero(PLAIN), Anew(LineWorld(PLAIN)), 5)
    ensures s.plant.world == HollowWorld()
  {
    hide UnderWay, StoppedWorld;
  }

  /** A run to a workflow that executes over a stopped mission. */
  lemma {:induction false} SomeRunIsHollow() returns (calls: seq<Call>, v: ServiceState)
    ensures Reached(LineScenario(PLAIN), calls, v) && |calls| == 8 && 1 in v.sessions && Hollow(v.sessions[1])
    ensures Apply(LineScenario(PLAIN), After(LineScenario(PLAIN), EMPTY, calls[..7]), calls[7]).1
         == Failed(1, AdapterFailed)
  {
    hide ServiceOk, Legal, After, Hollow, Reaches, Apply;
    HollowReached();
    RunFromEmpty(PLAIN, HollowCalls()[..6]);
    RunFromEmpty(PLAIN, HollowCalls());
    calls := [Create(1, LineIntent(3))] + HollowCalls();
    v := After(LineScenario(PLAIN), Created(PLAIN), HollowCalls());
    assert calls[..7] == [Create(1, LineIntent(3))] + HollowCalls()[..6];
  }

  /** And on from there to the end: stopped, replanned and resumed once more, the mission completes. */
  lemma {:induction false} SomeRunRecovers() returns (calls: seq<Call>, v: ServiceState)
    ensures Reached(LineScenario(PLAIN), calls, v) && |calls| == 11
    ensures var u := After(LineScenario(PLAIN), EMPTY, calls[..8]);
      1 in u.sessions && Hollow(u.sessions[1]) && AllCommit(LineScenario(PLAIN), u, calls[8..], 1, 3)
    ensures 1 in v.sessions && v.sessions[1].flow.current == COMPLETED && Delivered(LineSite(PLAIN), v.sessions[1])
  {
    hide ServiceOk, Legal, After, Hollow, Fit, AllCommit, Delivered, HollowWorld;
    var sc := LineScenario(PLAIN);
    HollowReached();
    var u := After(sc, Created(PLAIN), HollowCalls());
    forall stage | 3 <= stage < 6 ensures Fit(LineSite(PLAIN), LineAgain(), Midway(HollowWorld()), stage) {
      AgainIsFit(stage);
    }
    HeroRunDelivers(sc, u, 1, LineAgain(), Midway(HollowWorld()), 3, 7, 3);
    var more := HeroCalls(LineAgain(), 1, 3, 7, 3);
    RunsJoin(sc, Created(PLAIN), HollowCalls(), more);
    RunFromEmpty(PLAIN, HollowCalls());
    RunFromEmpty(PLAIN, HollowCalls() + more);
    calls := [Create(1, LineIntent(3))] + (HollowCalls() + more);
    v := After(sc, Created(PLAIN), HollowCalls() + more);
    assert calls[..8] == [Create(1, LineIntent(3))] + HollowCalls() && calls[8..] == more;
  }

  lemma AgainIsFit(stage: nat)
    requires 3 <= stage < 6
    ensures Fit(LineSite(PLAIN), LineAgain(), Midway(HollowWorld()), stage)
  {
    hide Recoverable, StoppedWorld, HollowWorld;
    if stage == 4 {
      AgainStops();
      LineHasAWayOn(PLAIN, Midway(HollowWorld()), LineAgain());
    }
  }

  lemma AgainStops()
    ensures 7 in HollowWorld().agvs
    ensures var w := StoppedWorld(LineSite(PLAIN), Midway(HollowWorld()), LineAgain());
      ClearLine(Taken(LineSite(PLAIN), w, 4.0), 2) && w.agvs[7].node == 2
  {
  }

  /** The five requests used none of the keys and identifiers that follow. */
  lemma FreshRenewal()
    ensures var u := After(LineScenario(PLAIN), Created(PLAIN), LineCalls(PLAIN, 5));
      Renewable(u, LineHero(PLAIN), AGAIN, LineAgain())
  {
    hide After, LineCalls;
    UsedSoFar(5);
  }

  /** Each committed request adds its own key and, an approval, its mission. */
  lemma {:induction false} UsedSoFar(n: nat)
    requires n <= 6
    ensures var u := After(LineScenario(PLAIN), Created(PLAIN), LineCalls(PLAIN, n));
      && (forall k :: k in u.operations ==> k.key == 10) && u.missions.Keys <= {15}
  {
    hide ServiceOk, Legal, After, Handle, Admissible, Reaches, Fit, Extends, AllCommit, RequestAt, HeroCalls;
    if n == 0 {
      NoCalls(LineScenario(PLAIN), Created(PLAIN));
      NothingUsedYet();
    } else {
      UsedSoFar(n - 1);
      LineRunReaches(PLAIN, n - 1);
      LineIsFit(PLAIN, n - 1);
      var before, r := LineCalls(PLAIN, n - 1), RequestAt(LineHero(PLAIN), 1, n - 1, n);
      var u := After(LineScenario(PLAIN), Created(PLAIN), before);
      StageServes(LineScenario(PLAIN), u, 1, LineHero(PLAIN), Anew(LineWorld(PLAIN)), n - 1, n);
      NextCall(n);
      OneMore(LineScenario(PLAIN), Created(PLAIN), before, Ask(r));
      CommitUses(u, r);
      RequestUses(n - 1, n);
    }
  }

  lemma NothingUsedYet()
    ensures Created(PLAIN).operations == map[] && Created(PLAIN).missions == map[] && LineCalls(PLAIN, 0) == []
  {
  }

  lemma NextCall(n: nat)
    requires 0 < n <= 6
    ensures LineCalls(PLAIN, n) == LineCalls(PLAIN, n - 1) + [Ask(RequestAt(LineHero(PLAIN), 1, n - 1, n))]
  {
  }

  lemma RequestUses(stage: nat, version: nat)
    requires stage < 6
    ensures var r := RequestAt(LineHero(PLAIN), 1, stage, version);
      r.OperationKey().key == 10 && (r.op.Approve? ==> r.op.missionId == 15)
  {
  }

  lemma CommitUses(u: ServiceState, r: Request)
    requires Handle(LineSite(PLAIN), u, r).1.Committed?
    ensures var w := Handle(LineSite(PLAIN), u, r).0;
      && w.operations.Keys <= u.operations.Keys + {r.OperationKey()}
      && w.missions.Keys <= u.missions.Keys + (if r.op.Approve? then {r.op.missionId} else {})
  {
    hide Perform;
    var sid := Locate(u, r).value;
    CommittedPapers(LineSite(PLAIN), u.sessions[sid], r.target, r.op);
  }

  /** A mission to the second node is delivered by its start, which commits, and is then stranded. */
  lemma {:induction false} SomeRunStrands() returns (calls: seq<Call>, v: ServiceState)
    ensures Reached(LineScenario(SHORT), calls, v) && |calls| == 4 && 1 in v.sessions && Stranded(v.sessions[1])
    ensures Apply(LineScenario(SHORT), After(LineScenario(SHORT), EMPTY, calls[..3]), calls[3]).1 == Reply.Committed(1,
      START)
  {
    hide ServiceOk, Legal, After, Stranded, Handle, Admissible, Reaches, Extends, AtStage;
    var sc, h := LineScenario(SHORT), LineHero(SHORT);
    CreatedReaches(SHORT);
    var prepare, approve, start := Ask(RequestAt(h, 1, 0, 1)), Ask(RequestAt(h, 1, 1, 2)), Ask(RequestAt(h, 1, 2, 3));
    var v1, v2 := Apply(sc, Created(SHORT), prepare).0, Apply(sc, Apply(sc, Created(SHORT), prepare).0, approve).0;
    LineIsFit(SHORT, 0);
    LineIsFit(SHORT, 1);
    StageServes(sc, Created(SHORT), 1, h, Anew(LineWorld(SHORT)), 0, 1);
    HandleKeeps(sc, Created(SHORT), prepare.request);
    StageServes(sc, v1, 1, h, Anew(LineWorld(SHORT)), 1, 2);
    HandleKeeps(sc, v1, approve.request);
    TwoNodeServes(sc, v2, 1, h, Anew(LineWorld(SHORT)), 3);
    NoCalls(sc, Created(SHORT));
    OneMore(sc, Created(SHORT), [], prepare);
    OneMore(sc, Created(SHORT), [] + [prepare], approve);
    OneMore(sc, Created(SHORT), [] + [prepare] + [approve], start);
    RunFromEmpty(SHORT, [] + [prepare] + [approve]);
    RunFromEmpty(SHORT, [] + [prepare] + [approve] + [start]);
    calls := [Create(1, LineIntent(2))] + ([] + [prepare] + [approve] + [start]);
    v := After(sc, Created(SHORT), [] + [prepare] + [approve] + [start]);
    assert calls[..3] == [Create(1, LineIntent(2))] + ([] + [prepare] + [approve]);
  }

  /** An intent for a place that does not exist: the preparation fails, the history ends in FAILED_SAFE,
      and the trace stops at OBSERVED. */
  lemma {:induction false} SomeRunAborts() returns (calls: seq<Call>, v: ServiceState)
    ensures Reached(LineScenario(NOWHERE), calls, v) && |calls| == 2 && 1 in v.sessions
    ensures Apply(LineScenario(NOWHERE), After(LineScenario(NOWHERE), EMPTY, calls[..1]), calls[1]).1 == Failed(1,
      NotLive)
    ensures v.sessions[1].flow.history == [INTENT, OBSERVED, FAILED_SAFE] && Recorded(v.sessions[1].trace) == [OBSERVED]
  {
    hide Legal, After, Recorded, Handle, Admissible, ServiceOk, Reaches;
    var sc, r := LineScenario(NOWHERE), AbortingRequest();
    CreatedIsOk(NOWHERE);
    AbortingCall();
    NoCalls(sc, Created(NOWHERE));
    OneMore(sc, Created(NOWHERE), [], Ask(r));
    RunFromEmpty(NOWHERE, []);
    RunFromEmpty(NOWHERE, [] + [Ask(r)]);
    calls, v := [Create(1, LineIntent(9))] + ([] + [Ask(r)]), After(sc, Created(NOWHERE), [] + [Ask(r)]);
    assert calls[..1] == [Create(1, LineIntent(9))] + [];
  }

  function AbortingRequest(): Request {
    Request(Prepare(0.0, NoFeasiblePlan, None), 1, 13, "operator", "", 10, 1)
  }

  lemma AbortingCall()
    ensures Admissible(LineScenario(NOWHERE), Created(NOWHERE), Ask(AbortingRequest()))
    ensures var (v, reply) := Handle(LineSite(NOWHERE), Created(NOWHERE), AbortingRequest());
      && reply == Failed(1, NotLive) && 1 in v.sessions
      && v.sessions[1].flow.history == [INTENT, OBSERVED, FAILED_SAFE] && Recorded(v.sessions[1].trace) == [OBSERVED]
  {
    hide Attempt, Recorded, Plant.Capture, Plant.OnMap, LineSite;
    AbortingAttempt();
  }

  lemma AbortingAttempt()
    ensures var (t, result) := Attempt(LineSite(NOWHERE), New(LineWorld(NOWHERE), LineIntent(9)), 1,
      Prepare(0.0, NoFeasiblePlan, None));
      && result == Raised(NotLive)
      && t.flow.history == [INTENT, OBSERVED, FAILED_SAFE] && Recorded(t.trace) == [OBSERVED]
  {
    hide Plant.Capture;
    var s := New(LineWorld(NOWHERE), LineIntent(9));
    TraceGrows([], Accepted(PREPARE));
    TraceGrows([] + [Accepted(PREPARE)], Transitioned(OBSERVED));
  }

  // ---- The planner is the stricter ----

  /** The line with an obstacle seen twice, with little confidence, on the only way. */
  function DoubtedLine(): Snapshot {
    Plant.Capture(LineSite(PLAIN),
      LineWorld(PLAIN).(obstacles := map[9 := Obstacle(2, 0.3, 0.0, 30.0, 2)], snapshots := 1), 0.0)
  }

  /** The safety engine accepts the route to the third node, but the planner answers that no route is
      feasible, and nothing else. */
  lemma {:induction false} SomeSafeRouteIsNotPlanned(planned: Outcome)
    ensures SafeRoute(LineIntent(3), LinePlan(1, 3), DoubtedLine())
    ensures Plans(DoubtedLine(), LineIntent(3), None, None, planned) <==> planned == NoFeasiblePlan
  {
    hide Selected, Candidates;
    var s := DoubtedLine();
    DoubtedIsSafe();
    assert 9 in s.obstacles && Blocks(s.obstacles[9], s.capturedAt) && s.obstacles[9].node in Avoided(s);
    var search := Search(s, LineIntent(3), None);
    forall p, es | Walk(LINE_EDGES, Avoided(s), 1, p, es) ensures Last(p) != 3 {
      if Last(p) == 3 {
        OneWay(Avoided(s), p, es);
      }
    }
    assert Answer(search, None);
    if planned.Planned? && Plans(s, LineIntent(3), None, None, planned) {
      var along :| PlanOf(s, LineIntent(3), None, None, planned.plan, along);
      OneWay(Avoided(s), planned.plan.nodes, along);
      assert false;
    }
  }

  lemma DoubtedIsSafe()
    ensures SafeRoute(LineIntent(3), LinePlan(1, 3), DoubtedLine())
  {
    assert Follow(DoubtedLine().waitFor, 7, 1) == None;
  }

  /** The only way to the third node leads through the second. */
  lemma OneWay(forbidden: set<Id>, p: seq<Id>, es: seq<Edge>)
    requires Walk(LINE_EDGES, forbidden, 1, p, es) && Last(p) == 3
    ensures 2 !in forbidden
  {
    LineWalks(forbidden, 1, 3, p, es);
    assert Hop(LINE_EDGES, forbidden, p, es, 0);
  }

  lemma NoCalls(sc: Scenario, v: ServiceState)
    ensures Legal(sc, v, []) && After(sc, v, []) == v
  {
  }
}
