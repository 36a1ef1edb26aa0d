# ShiftZero mission governance

A Dafny model of the governance core under `src/shiftzero`, with proofs of what it promises.

- `RoutePlanner`, `Planning`: the planner's search over the map and the plan it makes.
- `Safety`, `Agreement`: the safety engine's own judgement of a plan, and where it and the planner agree.
- `Plant`, `Workflow`: the reference world, the execution adapter and the workflow state, as specification
  functions and as objects updated in place.
- `Sessions`: what each mission operation does to a session, with every place where it raises and leaves the
  session as it then is. `SessionInvariant`, `SessionSteps`, `SessionEffects` and `SessionOutcomes` prove what
  every operation keeps, what it can change and exactly when it succeeds.
- `SessionRaises`, `SessionMotion`, `SessionLives`: which states a raise leads to and what the trace then tells; which
  motions a session can have made; what its whole life shows from its creation on.
- `SessionForms`: each operation in one piece, with every error it raises and the whole session it leaves.
- `Service`: requests with roles, idempotency keys and versions, around any number of sessions. `ServiceReplies` says
  what each is answered and what a commit does. `ServiceRuns`, `ServiceLives` and `ServiceTheorems` carry the session
  results over every run of the service.
- `HeroRun`, `HeroService`: the whole mission, prepared, approved, started, stopped, replanned and resumed, as six
  requests to the service from any state of it, and what follows a renewed approval. `LineRuns`: concrete runs from the
  empty service that reach the states the theorems speak of.
- `MissionSessions`, `MissionServices`: the session and the service as objects. Their methods are proved to have
  exactly the effect of the specification, so the theorems about runs are about sequences of these calls.
- `Ledger`: the durable operation ledger as an interleaving protocol of any number of clients with crashes.
- `Evidence`: the hash-chained trace and its checker. `ImpactQueue`: the load model's queue. `ToolCalls`: the
  model client's retries, repair, budget and circuit breaker.
- `Domain`: the shared data types and validators.

Identifiers are integers, ordered as the program orders its strings. Times and quantities are exact reals. The clock,
new identifiers, the provider's answers and the random draws are inputs. A digest is kept as the content it digests,
or is a parameter of which injectivity is asked where a result needs it.

## What the code does that its documentation does not say

Each of these is proved of the model, which keeps the code's behaviour.

- A proposal may be approved again in the VERIFIED state after a replan. The start that follows always raises and
  leaves the workflow EXECUTING over a stopped mission (`HeroService.RenewalStrands`, `LineRuns.SomeRunIsHollow`).
  Nothing moves. A second stop, replan and resume lead on to the delivery (`HeroService.RecoveryDelivers`,
  `LineRuns.SomeRunRecovers`), but the stop has to name the first mission: naming the one that the renewed approval
  filed leaves the session BLOCKED for ever (`ServiceTheorems.MisnamedStopIsFinal`).
- A route of two nodes is delivered by `start` itself. The workflow stays EXECUTING and can never become COMPLETED
  (`SessionOutcomes.TwoNodeStartStrands`, `ServiceTheorems.StrandedNeverCompletes`, `LineRuns.SomeRunStrands`).
- Delivery clears the source location field by field, and the location's validator restores each field from the other:
  the source keeps showing the pallet (`Plant.LoadsAfterAssignment`, `ServiceTheorems.SourceKeepsItsLoad`,
  `LineRuns.SomeRunCompletes`).
- The first advance puts the AGV at the second node of the route wherever on the map it stood; the planner's AGV choice
  does not look at its position (`SessionOutcomes.FirstStart`, `LineRuns.SomeRunDisplaces`). All other motions follow
  edges of the map, and the first does exactly when an edge joins the two nodes (`ServiceTheorems.MotionIsContinuous`).
- A transition into FAILED_SAFE or REJECTED by an operation that aborts is missing from the trace; no other transition
  is (`SessionRaises.AbortsGoUnrecorded`, `ServiceTheorems.TraceTellsHistory`, `LineRuns.SomeRunAborts`).
- An operation that raises after its first transition leaves the session in a state that nothing leaves, OBSERVED,
  PLANNED, BLOCKED and REPLANNING included (`SessionRaises.RaisesLeadNowhere`, `ServiceTheorems.AbortsAreForever`); only
  a start that raises leaves EXECUTING, and `SessionRaises.StartRaisesInExecuting` says when. Over runs that is when
  the session had executed before (`ServiceTheorems.StartNamesItsMission`).
- A mission completes only after it was stopped and replanned (`ServiceTheorems.CompletionIsRecovered`). In a scenario
  whose blockage names no node of the map, or has invalid fields, every stop raises before the adapter is told, and no
  mission ever completes (`ServiceTheorems.UnrecordableBlockageNeverCompletes`, `LineRuns.SomeRunCannotStop`).
- A replan made after the blockage has expired may lead through it (`SessionOutcomes.ReplanHeedsBlockage`,
  `LineRuns.SomeRunMeetsBlockage`).
- A ledger key whose client crashed between insert and commit is refused for ever (`Ledger.OrphanedKeyIsDead`,
  `Ledger.StuckExactlyWhenOrphaned`).
- The planner avoids, and the safety engine accepts, fresh obstacles seen twice with low confidence
  (`Agreement.BlocksButNotActive`, `LineRuns.SomeSafeRouteIsNotPlanned`).

## Model

| member | source | states |
|---|---|---|
| `ServiceTheorems.EveryMotionIsAuthorised` | src/shiftzero/mission_service.py:371-395 | in every run, whatever raises on the way, every node an AGV was moved to lies on the filed plan or the filed replan, which the planner made from a snapshot of the site and whose filed proof passed, for the session's own AGV; and the move was authorised at a check when an approval of the session's own proposal and goal was valid |
| `ServiceTheorems.AgvsMoveOnlyAsLogged` | src/shiftzero/mission_service.py:371-395 | between any two points of a run an AGV has changed place only if it is the selected one, new moves were logged, and it stands where the last of them put it |
| `ServiceTheorems.HistoriesFollowTheProtocol` | src/shiftzero/mission_service.py:589-612 | in every run a history starts at INTENT, follows the transition table, first executes right after APPROVED, and has BLOCKED, SAFE_STOP, REPLANNING, VERIFIED in that order between any two executions |
| `ServiceTheorems.MotionsAreTheFiledRoutes` | src/shiftzero/mission_service.py:371-395 | in every run the motions are none, or the advance to the filed plan's second node, followed once completed by the whole filed replan, node by node, on one authority, from the node that the advance had led to |
| `ServiceTheorems.EveryMotionWasOrdered` | src/shiftzero/mission_service.py:226-285 | in every run each motion follows a call by an approver or admin that committed and issued the approval the motion was made under, in that caller's name, and was made by a later call of an executor or admin, a start or resume that committed |
| `ServiceTheorems.MotionIsContinuous` | src/shiftzero/adapters.py:57-77 | in every run each motion but the first goes over an edge of the map from where the one before ended; the first leads from wherever the AGV was at creation to the plan's second node, over an edge exactly when one joins these two, as from the plan's origin; the AGV stands at the end of this trail, and a completed trail is the creation place followed by the replanned route |
| `ServiceTheorems.FinalIsForever` | src/shiftzero/mission_service.py:819-848 | a session in a state where every operation refuses gains only notes of accepted requests, in every continuation |
| `ServiceTheorems.AbortsAreForever` | src/shiftzero/mission_service.py:850-867 | a request that fails after a transition leaves its session unchanged for ever, unless it is a start that leaves EXECUTING |
| `ServiceTheorems.TraceTellsHistory` | src/shiftzero/mission_service.py:138-168 | in every run the trace records every transition exactly when the state is neither FAILED_SAFE nor REJECTED or a rejection or override was committed; otherwise it misses exactly the last one |
| `ServiceTheorems.OneMissionForLife` | src/shiftzero/adapters.py:38-55 | once dispatched, the adapter's mission stays its only one and keeps its identifier, pallet, endpoints, AGV and goal through every replan and renewed approval |
| `ServiceTheorems.StillnessOverRuns` | src/shiftzero/adapters.py:91-113 | from a completed stop until a resume commits, whatever else is called, the mission stays SAFE_STOP, no AGV changes node or pose, no load moves and no motion is logged |
| `ServiceTheorems.CompletedMeansDelivered` | src/shiftzero/mission_service.py:602-622 | in every run a COMPLETED session has its pallet at the destination by both records and its idle AGV at the destination's node, reached from the second node of the first plan, where the replanned route begins, node by node along that route over edges of the map on one authority, with no other motion |
| `ServiceTheorems.CompletionIsRecovered` | src/shiftzero/mission_service.py:589-622 | in every run a COMPLETED history ends in EXECUTING, BLOCKED, SAFE_STOP, REPLANNING, VERIFIED, EXECUTING, COMPLETED, and nothing follows: a mission that is never stopped never completes |
| `ServiceTheorems.UnrecordableBlockageNeverCompletes` | src/shiftzero/mission_service.py:424-437 | where the scenario's blockage cannot be recorded, no history of any run has BLOCKED, SAFE_STOP, REPLANNING or COMPLETED |
| `ServiceTheorems.SourceKeepsItsLoad` | src/shiftzero/adapters.py:83-88 | in every run every location but the destination is as it was when the session was created, so that a completed session shows its pallet at both places exactly when the source held it then |
| `ServiceTheorems.StartNamesItsMission` | src/shiftzero/mission_service.py:350-395 | in every run an admitted start of a session that has not executed names the mission that waits in it, a session that executed was moved, and a start leaves EXECUTING over a failure exactly when the session had executed before |
| `ServiceTheorems.MisnamedStopIsFinal` | src/shiftzero/mission_service.py:424-456 | a stop that names another mission than the adapter's, such as one filed by a renewed approval, or no trigger, fails and leaves the session BLOCKED in every continuation |
| `ServiceTheorems.StrandedNeverCompletes` | src/shiftzero/adapters.py:79-89 | a session whose AGV reached the destination before its workflow completed never reaches COMPLETED, in any continuation |
| `ServiceTheorems.VersionsCountCommits` | src/shiftzero/mission_service.py:819-867 | in every run a session's version is one more than the keys committed for it and than the commits in its trace, and no key is pending and committed at once |
| `ServiceTheorems.RefusalsChangeNothing` | src/shiftzero/mission_service.py:819-848 | a request leaves the whole service as it was, traces included, exactly when it is refused or answered from its receipt; an accepted one changes no other session |
| `ServiceTheorems.CommittedOnce` | src/shiftzero/mission_service.py:829-834 | after a commit the same request is answered from its receipt for ever, with the same session and no change, and no request with that key is ever accepted again |
| `ServiceTheorems.NoLostUpdate` | src/shiftzero/mission_service.py:835-838 | after a commit no request that saw the same or an older version of that session is ever accepted |
| `ServiceTheorems.CommitBumpsVersion` | src/shiftzero/mission_service.py:850-867 | a commit sets the version to one more than the caller expected; a failed operation leaves the version and leaves its key pending |
| `ServiceTheorems.PendingUntilCommitted` | src/shiftzero/mission_service.py:847-862 | a pending key stays pending until it is committed, and is then only committed |
| `ServiceRuns.RunKeeps` | src/shiftzero/mission_service.py:67-110 | every run keeps the service sound: each session's invariant, index references, key disjointness and version counts; sessions only evolve and filed entries stay |
| `ServiceRuns.AttemptKeeps` | src/shiftzero/mission_service.py:850-867 | an accepted operation keeps the session sound, lets it only evolve, and moves the version on exactly when it commits |
| `Service.ApproversDoNotExecute` | src/shiftzero/mission_service.py:869-874 | no role but admin may both approve a mission and start or resume it |
| `SessionSteps.PerformKeeps` | src/shiftzero/mission_service.py:112-766 | every operation keeps the session invariant, at every place where it raises as much as when it succeeds |
| `SessionEffects.PerformEvolves` | src/shiftzero/mission_service.py:112-766 | every operation keeps filed papers, only extends history, trace and moves, moves AGVs only by logged moves, and keeps the dispatched mission |
| `SessionOutcomes.PrepareCommits` | src/shiftzero/mission_service.py:130-206 | prepare succeeds exactly from INTENT, with every AGV on the map, live endpoints, a plan and a proposal, when the route is safe and the proposal describes it on this snapshot |
| `SessionOutcomes.ApproveCommits` | src/shiftzero/mission_service.py:237-261 | approve succeeds exactly from VERIFIED within the approval's lifetime when every check but the seal passed |
| `SessionOutcomes.StartCommits` | src/shiftzero/mission_service.py:371-396 | start succeeds exactly for the session's own APPROVED mission, under a valid approval, and only if the session never executed before; after a renewed approval it always raises |
| `SessionOutcomes.FirstStart` | src/shiftzero/adapters.py:38-90 | the first start puts the selected AGV, wherever on the map it stood, at the second node of the route, and completes the adapter's mission exactly when the route has two nodes |
| `SessionOutcomes.StopCommits` | src/shiftzero/mission_service.py:424-456 | stop succeeds exactly while EXECUTING, with a trigger, for the mission the adapter holds, in a scenario whose blockage can be recorded |
| `SessionOutcomes.ReplanCommits` | src/shiftzero/mission_service.py:488-566 | replan succeeds exactly from SAFE_STOP when the recovery keeps the goal and the new route is safe under the still valid first approval |
| `SessionOutcomes.ResumeCommits` | src/shiftzero/mission_service.py:589-622 | resume succeeds exactly when its guard passes for the mission the adapter holds: once past the guard it cannot fail |
| `SessionOutcomes.ResumeDelivers` | src/shiftzero/mission_service.py:602-622 | a resume that succeeds starts where the AGV stands, makes exactly one advance fewer than the route has nodes, and delivers, joined to the motion before it |
| `SessionSteps.DriveDelivers` | src/shiftzero/mission_service.py:618-620 | the loop of advances ends without raising, after visiting the rest of the route node by node |
| `SessionSteps.SecondStartKeeps` | src/shiftzero/mission_service.py:371-394 | a start after a renewed approval only enters EXECUTING and raises: the adapter answers with the stopped mission |
| `SessionOutcomes.StopHalts` | src/shiftzero/mission_service.py:437-456 | a stop that succeeds leaves the adapter's mission in SAFE_STOP |
| `SessionOutcomes.Stillness` | src/shiftzero/adapters.py:57-60 | no operation but a resume that succeeds changes a stopped mission, an AGV's place, a load or the log of moves |
| `SessionOutcomes.FinalStatesAreFrozen` | src/shiftzero/mission_service.py:112-766 | in each of these states every operation refuses and changes nothing |
| `SessionOutcomes.TwoNodeStartStrands` | src/shiftzero/adapters.py:79-90 | start completes the adapter's mission exactly when the route has two nodes, and then leaves the AGV at the destination in EXECUTING |
| `SessionOutcomes.StrandedStays` | src/shiftzero/mission_service.py:528-537 | no operation takes such a session on: the planner makes no plan from the destination to itself |
| `SessionOutcomes.ReplanAvoidsObstacles` | src/shiftzero/mission_service.py:528-566 | a replan that succeeds leads the same AGV from where it stands to the approved destination over edges of the map, clear of every obstacle in force |
| `SessionOutcomes.ReplanHeedsBlockage` | src/shiftzero/simulator.py:186-197 | the recorded blockage counts at a replan exactly when its confidence is at least 0.9 and the replan is no later than the stop plus its time to live: the new route then avoids its node, and otherwise the planner avoids what it would avoid without the record |
| `SessionLives.PerformLives` | src/shiftzero/mission_service.py:112-766 | every operation keeps what a session's life shows: it evolved from its creation, an execution moved it, a completion came at the end of a whole recovery, and a block needs a blockage that can be recorded |
| `SessionLives.TrailFollowsEdges` | src/shiftzero/adapters.py:57-77 | the places of the selected AGV since creation follow edges of the map from the second on, and from the first exactly when an edge joins the first two |
| `SessionLives.ApprovalsAreGranted` | src/shiftzero/mission_service.py:239-261 | an operation changes the approval only by withdrawing it, or as an approval that commits, in the caller's name |
| `SessionLives.MotionsAreOrdered` | src/shiftzero/mission_service.py:371-395 | an operation moves an AGV only as a start or resume that commits, under the approval then filed |
| `ServiceLives.RunLives` | src/shiftzero/mission_service.py:67-110 | in every run every session lived so, and every mission identifier on file belongs to an approved mission that waits, as long as its session has not executed |
| `ServiceLives.RunLicensed` | src/shiftzero/mission_service.py:226-285 | in every run every approval on file and every motion has the earlier requests that account for it |
| `SessionRaises.AbortsGoUnrecorded` | src/shiftzero/mission_service.py:166-168 | where the trace told the whole history before an operation, it does after it exactly unless the operation raised right after a transition into FAILED_SAFE or REJECTED |
| `SessionRaises.UnknownDestinationGoesUnrecorded` | src/shiftzero/mission_service.py:137-168 | an intent for a place that does not exist: the history ends in FAILED_SAFE and the trace at OBSERVED |
| `SessionRaises.RaisesLeadNowhere` | src/shiftzero/mission_service.py:112-766 | an operation that raises after a transition leaves a state in which every operation refuses, except that a start may leave EXECUTING |
| `SessionRaises.StartRaisesInExecuting` | src/shiftzero/mission_service.py:371-394 | that happens exactly under a valid approval when the session executed before or the call names another mission |
| `SessionMotion.PerformKeepsMotion` | src/shiftzero/mission_service.py:371-395 | every operation keeps the motions to the filed plan's first advance and, once completed, the whole filed replan |
| `SessionMotion.MotionsAreSourced` | src/shiftzero/mission_service.py:528-561 | every motion was made on the filed plan with the proof of the filed proposal, or the filed replan with its own, both passed and both made by the planner from a snapshot of the site |
| `HeroRun.StageCommits` | src/shiftzero/mission_service.py:112-664 | each of the six operations of a whole mission commits from the state the one before it leaves; after the stop the selected AGV stands stopped at the second node, the blockage is recorded and nothing else in the world has changed |
| `HeroService.StageServes` | src/shiftzero/mission_service.py:112-664 | the request for each of them is admissible, is admitted by its role, key and version, and commits |
| `HeroService.HeroRunDelivers` | src/shiftzero/mission_service.py:112-664 | wherever the service stands and at whichever stage the session, the requests of the next stages commit one after the other, from a safe plan, a lasting approval, a stop that can be recorded and a safe way on, and after the last of the six the load is delivered |
| `HeroService.RenewalStrands` | src/shiftzero/mission_service.py:371-394 | after a replan a renewed approval commits, and the start that follows fails and leaves EXECUTING over a stopped mission, ready for a second stop |
| `HeroService.RecoveryDelivers` | src/shiftzero/mission_service.py:398-664 | from there a second stop of the first mission, a replan and a resume all commit, and the load is delivered |
| `HeroService.UnrecordableStopFails` | src/shiftzero/mission_service.py:424-437 | where the blockage cannot be recorded the stop fails, and the session is as before but for the note of the request |
| `HeroService.TwoNodeServes` | src/shiftzero/adapters.py:79-90 | the start of a two-node mission commits, with its AGV at the destination in EXECUTING |
| `LineRuns.SomeRunCompletes` | src/shiftzero/mission_service.py:112-664 | a concrete run from the empty service, all of whose requests commit, ends COMPLETED and delivered, with the source still showing the pallet |
| `LineRuns.SomeRunDisplaces` | src/shiftzero/adapters.py:57-77 | a concrete run whose start commits and puts the AGV from a node that no edge touches at the second node of the route |
| `LineRuns.SomeRunCannotStop` | src/shiftzero/mission_service.py:424-437 | a concrete run in which the blockage names no node of the map: the stop fails with the mission still EXECUTING |
| `LineRuns.SomeRunMeetsBlockage` | src/shiftzero/simulator.py:191-197 | a concrete run whose replan, made after the blockage has expired, leads through the blocked node and completes |
| `LineRuns.SomeRunRecovers` | src/shiftzero/mission_service.py:398-664 | a concrete run that goes on from EXECUTING over a stopped mission to COMPLETED and delivered |
| `LineRuns.SomeSafeRouteIsNotPlanned` | src/shiftzero/simulator.py:191-209 | a snapshot in which the safety engine accepts a route that the planner, whose one answer is that none is feasible, does not make |
| `LineRuns.SomeRunHalts` | src/shiftzero/mission_service.py:437-456 | a concrete run reaches a stopped mission |
| `LineRuns.SomeRunIsHollow` | src/shiftzero/mission_service.py:371-394 | a concrete run reaches EXECUTING over a stopped mission, by a renewed approval whose start fails |
| `LineRuns.SomeRunStrands` | src/shiftzero/adapters.py:79-90 | a concrete run with a two-node plan reaches a session that can never complete |
| `LineRuns.SomeRunAborts` | src/shiftzero/mission_service.py:166-168 | a concrete run whose preparation aborts leaves the abort out of the trace |
| `SessionForms.PrepareForm` | src/shiftzero/mission_service.py:130-212 | preparation in one piece: which error it raises, in the order of the lines, and the session left, with its papers, its states and those of them on the trace |
| `SessionForms.ApproveForm` | src/shiftzero/mission_service.py:236-284 | approval in one piece: the issued approval with its content, the sealed proof and the new mission field by field, or the error and what it leaves |
| `SessionForms.RefusalForms` | src/shiftzero/mission_service.py:311-345 | rejection of a VERIFIED proposal alone, and override from SAFE_STOP or VERIFIED alone, which takes the approval away |
| `SessionForms.StartForm` | src/shiftzero/mission_service.py:369-395 | start in one piece: an approval that does not hold fails for good, a mission dispatched before is answered without a motion, and a new one makes and reports its first advance when it is the one named |
| `SessionForms.StopForm` | src/shiftzero/mission_service.py:422-456 | stop in one piece: the recorded blockage field by field, then the adapter's mission and its AGV stopped, or the error and what it leaves |
| `SessionForms.ReplanForm` | src/shiftzero/mission_service.py:486-566 | replan in one piece: the recovery that does not keep the goal, the plan that is missing, and the sealed proof of the new route decide, each with the session left |
| `SessionForms.ResumeForm` | src/shiftzero/mission_service.py:587-622 | resume in one piece: the mission at the end of the new route, its AGV idle there, the load delivered, each advance reported, and nothing else changed |
| `ServiceReplies.RepliesMean` | src/shiftzero/mission_service.py:800-874 | the answer to every request: unknown, forbidden outside the listed roles, replayed or conflicting on a committed key, conflicting on another version, and otherwise carried out with exactly the records of the lines |
| `ServiceReplies.ReplaysExactly` | src/shiftzero/mission_service.py:827-834 | after a commit a later request with its operation and key is replayed exactly when it names the same session and target, by the same caller in the same role, with the same trigger, reason or node; otherwise it conflicts |
| `ServiceReplies.AttemptForm` | src/shiftzero/mission_service.py:839-867 | accepted first and committed last, with the version of the session and of its mission moved on |
| `ServiceReplies.CommitMeans` | src/shiftzero/mission_service.py:112-766 | a request that commits was in a role of its operation and took the session from one of its states by exactly its states; an override leaves no approval |
| `ServiceReplies.EveryCommitWasAsked` | src/shiftzero/mission_service.py:869-874 | in every run each operation on a session's trace was committed by a call in one of the roles of its line |
| `ServiceReplies.OverrideWithdraws` | src/shiftzero/mission_service.py:731-732 | in every run a session with a committed override is in FAILED_SAFE without an approval |
| `MissionServices.MissionService.Serve` | src/shiftzero/mission_service.py:112-766 | the object's method for every request has exactly the effect and answer of the specification, for a planner outcome the planner can return, and keeps the service sound |
| `MissionServices.MissionService.CreateIntent` | src/shiftzero/mission_service.py:81-110 | a new session starts at INTENT, version 1, in a world of its own, and changes no other session |
| `MissionServices.MissionService.BeginOperation` | src/shiftzero/mission_service.py:800-848 | refuses exactly unknown targets, wrong roles, reused keys and stale versions, answers receipts, and otherwise records the operation as accepted and pending |
| `MissionServices.MissionService.FinishOperation` | src/shiftzero/mission_service.py:850-867 | moves the version on, files the key as committed and removes it from the pending ones |
| `MissionSessions.MissionSession.PrepareProposal` | src/shiftzero/mission_service.py:130-206 | works in place on world, workflow and papers with the effect of the prepare step, wherever it raises |
| `MissionSessions.MissionSession.ApproveProposal` | src/shiftzero/mission_service.py:237-285 | works in place with the effect of the approve step |
| `MissionSessions.MissionSession.StartMission` | src/shiftzero/mission_service.py:371-396 | works in place on adapter, world and workflow with the effect of the start step, including a dispatch whose advance raises |
| `MissionSessions.MissionSession.StopMission` | src/shiftzero/mission_service.py:424-457 | works in place with the effect of the stop step, including a blockage recorded before the stop raises |
| `MissionSessions.MissionSession.ReplanMission` | src/shiftzero/mission_service.py:488-567 | works in place with the effect of the replan step, wherever it raises |
| `MissionSessions.MissionSession.DriveMission` | src/shiftzero/mission_service.py:618-620 | the while loop terminates for every session and computes the recursive drive |
| `MissionSessions.MissionSession.ResumeAndComplete` | src/shiftzero/mission_service.py:589-622 | works in place with the effect of the resume step, including a drive that raises half-way |
| `MissionSessions.MissionSession.RejectProposal` | src/shiftzero/mission_service.py:315-347 | works in place with the effect of the reject step |
| `MissionSessions.MissionSession.OverrideToFailedSafe` | src/shiftzero/mission_service.py:693-735 | works in place with the effect of the override step: the approval is withdrawn |
| `MissionSessions.MissionSession.ProposeRoute` | src/shiftzero/mission_service.py:168-195 | files plan and proposal in place, in the order and with the states of the program |
| `MissionSessions.MissionSession.JudgeProposal` | src/shiftzero/mission_service.py:196-212 | verifies the proposal and moves to VERIFIED or REJECTED |
| `MissionSessions.MissionSession.ProveEquivalent` | src/shiftzero/mission_service.py:538-566 | judges the new route with a proposal issued for it, seals it with the first approval and moves to VERIFIED or FAILED_SAFE |
| `MissionServices.MissionService.Index` | src/shiftzero/mission_service.py:285-285 | files the new proposal or mission identifier of an operation that succeeded |
| `SessionSteps.FirstDispatch` | src/shiftzero/adapters.py:38-55 | the first start hands the approved mission to an empty adapter, which executes it on the approved route |
| `SessionSteps.SecondDispatch` | src/shiftzero/adapters.py:38-41 | a renewed approval dispatches nothing: the adapter returns the stopped mission, and no advance is possible |
| `SessionSteps.RerouteKeeps` | src/shiftzero/adapters.py:102-113 | the resumed mission starts over on the new route, the same mission on the same AGV |
| `SessionSteps.MovedKeeps` | src/shiftzero/adapters.py:57-90 | an advance of a dispatched mission never raises, keeps every invariant, and logs the node it goes to |
| `SessionInvariant.NewSessionOk` | src/shiftzero/mission_service.py:97-107 | a new session satisfies the invariant |
| `Plant.AdvanceEffect` | src/shiftzero/adapters.py:57-90 | a ready executing mission, whose AGV stands on the map, can always advance: its own AGV goes to the next route node, no other moves, and it completes exactly at the last node, delivering the load |
| `Plant.AdvanceMoves` | src/shiftzero/adapters.py:57-82 | an advance, raising or not, moves the index on by one, at most to the last node, and drives the AGV there exactly when both ends of the move are on the map, completing at the last node; everything else stays |
| `Plant.AdvanceUnloads` | src/shiftzero/adapters.py:79-90 | an advance that arrives loads the destination when it is free and everything is known, and otherwise raises; a refused load stays in the first record; the source is unchanged |
| `Plant.AdvanceTowardsEnd` | src/shiftzero/adapters.py:57-90 | each advance of a ready mission arrives, or leaves the same end of the route to be reached |
| `Plant.StartMeans` | src/shiftzero/adapters.py:38-55 | a used dispatch key answers with its mission; a new one stores the approved mission and marks and poses its AGV, or raises part of the way |
| `Plant.StopMeans` | src/shiftzero/adapters.py:91-101 | a stop leaves the known mission and its AGV stopped and nothing else changed |
| `Plant.RerouteMeans` | src/shiftzero/adapters.py:102-113 | only a stopped mission takes a new route, from its start, and executes again with its AGV |
| `Plant.CaptureMeans` | src/shiftzero/simulator.py:96-131 | a snapshot shows the world's entities as they are, each AGV posed where it stands, and is numbered one higher |
| `Plant.LoadsAfterAssignment` | src/shiftzero/domain.py:126-134 | assigning None to both fields of an occupied location has no effect; loading succeeds exactly on an empty location or one that holds the load |
| `Plant.SimulatorAdapter.StartMission` | src/shiftzero/adapters.py:38-55 | in place: deduplicates by dispatch key, refuses what is not APPROVED, and otherwise stores the mission and marks the AGV; a raise leaves what was assigned before it |
| `Plant.SimulatorAdapter.AdvanceMission` | src/shiftzero/adapters.py:57-90 | in place: the effect of one advance on mission, AGV, locations and pallet, or, where it raises, of its first part |
| `Plant.SimulatorAdapter.StopLocally` | src/shiftzero/adapters.py:91-101 | in place: any known mission becomes SAFE_STOP and then its AGV stopped; an empty trigger is refused |
| `Plant.SimulatorAdapter.Reroute` | src/shiftzero/adapters.py:102-113 | in place: only a stopped mission takes a new route, from its start, and then its AGV executes |
| `Plant.ReferenceWorld.TakeSnapshot` | src/shiftzero/simulator.py:96-127 | counts the snapshot and shows the world with every AGV's pose at its node; raises exactly when some AGV stands off the map |
| `Plant.ReferenceWorld.AddHeroBlockage` | src/shiftzero/simulator.py:143-161 | records the scenario's obstacle as seen now, once; raises, changing nothing, exactly when its node is off the map or its fields are invalid |
| `Plant.SimulatorAdapter.Arrive` | src/shiftzero/adapters.py:79-90 | in place: the mission is completed and its AGV idle before the load is moved |
| `Plant.SimulatorAdapter.Deliver` | src/shiftzero/adapters.py:82-89 | in place: the locations are assigned in order, and the pallet last; a raise leaves the assignments before it |
| `SessionSteps.FailedStopLeavesNothing` | src/shiftzero/adapters.py:91-101 | no stop of a session of the service raises half-way |
| `SessionSteps.FailedRerouteLeavesNothing` | src/shiftzero/adapters.py:102-113 | no reroute of a session of the service raises half-way |
| `Workflow.WorkflowState.Transition` | src/shiftzero/state_machine.py:47-51 | moves exactly when the table allows it and appends to the history; otherwise changes nothing |
| `Workflow.TableSeparatesExecutions` | src/shiftzero/state_machine.py:12-39 | the table alone puts a whole recovery between any two executions |
| `Domain.ApprovalBinds` | src/shiftzero/domain.py:310-344 | an issued approval authorises exactly the proposals with its hash and goal, for 900 seconds, and altering any of its content invalidates it |
| `Domain.SameGoal` | src/shiftzero/domain.py:70-79 | two intents have one goal exactly when pallet, endpoints and constraints, in any order, are the same, whichever AGV they ask for |
| `Domain.AlignMeans` | src/shiftzero/domain.py:126-134 | the validator accepts exactly locations whose records do not contradict each other, and leaves both showing the load that either showed |
| `Workflow.TableByTarget` | src/shiftzero/state_machine.py:12-41 | the transition table by where each state can be entered from; nothing leads to FAILED |
| `Workflow.ExecutionsAreSeparatedByReplanning` | src/shiftzero/state_machine.py:12-39 | two successive executions are five or six steps apart, with at most a renewed approval before the second |
| `RoutePlanner.BuildGraph` | src/shiftzero/simulator.py:258-262 | the adjacency lists hold each edge, in the order listed, once for each direction in which it can be driven |
| `RoutePlanner.PushAll` | src/shiftzero/simulator.py:272-278 | pushes exactly the extensions to neighbours that are neither forbidden nor on the path |
| `RoutePlanner.FrontierBefore` | src/shiftzero/simulator.py:265-278 | every clear walk to an unsettled node has a queued entry that comes before it, so the search misses nothing |
| `Safety.CycleNeverLeaves` | src/shiftzero/safety.py:208-217 | a repeated AGV keeps the chain of waits in the map for ever |
| `Agreement.RouteKeepsClear` | src/shiftzero/simulator.py:201-206 | past its origin a planned route meets the safety engine's rules on zones and obstacles |
| `RoutePlanner.ShortestPath` | src/shiftzero/simulator.py:252-279 | returns the least route by length and then by nodes among all clear walks, or nothing exactly when there is none, within 1 + 2 x edges heap entries |
| `RoutePlanner.PoppedIsBest` | src/shiftzero/simulator.py:265-271 | the entry popped for an unsettled node is the best walk to that node |
| `RoutePlanner.RouteIsCanonical` | src/shiftzero/simulator.py:258-278 | the route does not depend on the order in which edges are listed or on how the heap breaks ties |
| `RoutePlanner.LexMeans` | src/shiftzero/simulator.py:264-265 | the order in which paths break ties: a prefix, or the smaller at the first difference |
| `RoutePlanner.LengthAdds` | src/shiftzero/simulator.py:207-207 | the length of a list of edges is the sum of theirs |
| `Planning.SelectAgv` | src/shiftzero/simulator.py:230-249 | selects the eligible AGV of highest battery, then least identifier, and counts the candidates |
| `Planning.MakeRoute` | src/shiftzero/simulator.py:170-228 | returns only outcomes the specification allows |
| `Planning.PlansExactlyWhenPossible` | src/shiftzero/simulator.py:170-209 | a plan is made exactly when endpoints are live, an AGV qualifies, the destination is elsewhere and a clear way exists |
| `Planning.PlanMeans` | src/shiftzero/simulator.py:170-249 | a plan's AGV is idle, or stopped if forced, fit for pallets, and of highest battery and then least identifier; its route drives edges of the map in their direction from the start or source to the destination, enters no closed or blocked node, and no such way is shorter, or as short and earlier in order; distance, energy, duration, groups and candidates are as computed from these |
| `Planning.NoPlanMeans` | src/shiftzero/simulator.py:180-249 | no plan is found exactly when an endpoint is missing or unreachable, no AGV may carry, or there is no such way; a plan is refused exactly when the way leads to where it starts |
| `Planning.DurationAdds` | src/shiftzero/simulator.py:208-208 | the driving time of a list of edges is the sum of length by speed |
| `Planning.PlanFollowsEdges` | src/shiftzero/simulator.py:201-217 | a plan's route is simple, starts and ends where it should, follows edges and meets no avoided node past its origin |
| `Planning.PlanIsCanonical` | src/shiftzero/simulator.py:170-228 | two plans for one request agree on AGV, nodes, distance and energy |
| `Safety.TemporalConflicts` | src/shiftzero/safety.py:84-98 | finds exactly the conflicting pairs of slot and reservation |
| `Safety.TemporalCheckMeaning` | src/shiftzero/safety.py:84-98 | the temporal check passes exactly when at no instant another vehicle's reservation is in force during this AGV's slot on its group |
| `Safety.SlotsTile` | src/shiftzero/safety.py:84-88 | the slots tile the route's estimated duration: every instant lies in exactly one |
| `Safety.HasCircularWait` | src/shiftzero/safety.py:208-217 | terminates and answers true exactly when the chain of waits never leaves the map, that is, when a chain of AGVs each waiting for the next comes back to one of them |
| `Safety.Verify` | src/shiftzero/safety.py:31-151 | issues the proof of the ten checks, in order, as `Safety.ProofMeans` spells them out |
| `Safety.ProofMeans` | src/shiftzero/safety.py:42-151 | a route proof is issued for the proposal, the plan and the snapshot, lists the ten checks in order, each passed exactly when what it asks of the snapshot's entries is so, with every threshold and zone, and passes exactly when all of it is so |
| `Safety.ProofPasses` | src/shiftzero/safety.py:118-151 | a proof passes exactly when the route is safe and versions and proposal match |
| `Safety.SealPasses` | src/shiftzero/safety.py:175-199 | a sealed proof keeps the other checks and passes exactly when they and the approval hold; sealing again replaces the seal |
| `Safety.SealedRoutePasses` | src/shiftzero/safety.py:153-199 | a sealed replan proof passes exactly when the route is safe, the proposal issued for it matches and the first approval is valid |
| `Agreement.PlannerAndSafetyAgree` | src/shiftzero/safety.py:53-116 | for a planned route and a proposal from the same snapshot, versions and semantics always match and zones and obstacles can fail only at the origin; exactly the other conditions decide |
| `Agreement.ActiveIsAvoided` | src/shiftzero/simulator.py:191-197 | every obstacle the safety engine counts, the planner avoids |
| `Agreement.BlocksButNotActive` | src/shiftzero/safety.py:64-76 | the planner is stricter exactly on fresh obstacles seen at least twice with confidence below one half |
| `Ledger.ExactlyOnce` | src/shiftzero/storage.py:38-88 | under every interleaving with crashes: at most one holder per key, the callback succeeds, its response converted, at most once, all responses for a key are that result, to the same request, and all but the first are marked replayed |
| `Ledger.RunKeepsInv` | src/shiftzero/storage.py:38-88 | every interleaving keeps each key with at most one holder, each held key pending, and each result recorded once |
| `Ledger.CommittedForever` | src/shiftzero/storage.py:76-88 | a committed receipt never changes |
| `Ledger.OrphanedKeyIsDead` | src/shiftzero/storage.py:44-52 | a key whose holder crashed never runs again and never gets a response |
| `Ledger.StuckExactlyWhenOrphaned` | src/shiftzero/storage.py:65-88 | a pending key can never be settled again exactly when its holder is gone; any holder can still commit it or give it back |
| `Ledger.CrashOrphans` | src/shiftzero/storage.py:65-76 | a crash between insert and commit or delete orphans the key |
| `Ledger.SqliteOperationLedger.Execute` | src/shiftzero/storage.py:29-88 | one call at a time, in place: a new key returns and records the callback's result, or passes its failure on and leaves no row; a known one replays a recorded result to the same input, refuses another input or a pending row, and changes nothing |
| `Ledger.SerialCallIsARun` | src/shiftzero/storage.py:29-88 | an uninterrupted call is a run of the protocol with the serial effect: it answers with a response exactly when the run hands that response out, raises exactly when the run fails and deletes, and refuses exactly on another fingerprint or a pending row |
| `Ledger.SerialReplay` | src/shiftzero/storage.py:44-52 | a successful call replays for the same input and refuses any other, without change |
| `Evidence.EvidenceRecorder.Record` | src/shiftzero/evidence.py:29-47 | appends one span with the next sequence number, linked to the head, and the trace verifies |
| `Evidence.Verify` | src/shiftzero/evidence.py:111-127 | accepts exactly the nonempty chains |
| `Evidence.PrefixVerifies` | src/shiftzero/evidence.py:111-127 | every nonempty prefix of a valid trace verifies |
| `Evidence.SameHeadWitness` | src/shiftzero/evidence.py:111-127 | for any hash, two valid traces with one head are identical or exhibit a collision |
| `Evidence.TamperingIsDetected` | src/shiftzero/evidence.py:111-127 | for an injective hash, against a stored head, only the recorded trace verifies |
| `ImpactQueue.Arrivals` | src/shiftzero/impact.py:127-133 | arrival times are in order, each the scaled gap after the one before |
| `ImpactQueue.SimulateDay` | src/shiftzero/impact.py:135-149 | the loop computes the day's jobs, waits and backlog: each pallet goes to the first AGV whose last earlier job ends earliest, starts when both are there, takes its service time, waits from its arrival, and counts as backlog exactly when it finishes after closing |
| `ImpactQueue.DayIsFirstCome` | src/shiftzero/impact.py:138-144 | the job of each pallet in terms of the jobs before it: first AGV of least last finish, start at the later of that and the arrival, finish after the service time |
| `ImpactQueue.EarliestIsFirstLeast` | src/shiftzero/impact.py:139-139 | the AGV chosen is the first one with the least free time |
| `ImpactQueue.StartsInArrivalOrder` | src/shiftzero/impact.py:138-143 | pallets start in arrival order |
| `ImpactQueue.OnePalletAtATime` | src/shiftzero/impact.py:138-143 | no AGV serves two pallets at once |
| `ImpactQueue.WaitsOnlyWhileAllBusy` | src/shiftzero/impact.py:138-145 | at every instant a pallet waits, every AGV is busy with an earlier pallet |
| `ImpactQueue.BetterFleetStaysBetter` | src/shiftzero/impact.py:135-149 | with more AGVs, shorter services or earlier arrivals, at every time at least as many AGVs are free, through the whole loop |
| `ImpactQueue.NoWorseIsDominance` | src/shiftzero/impact.py:135-143 | for fleets of any sizes that is exactly being no smaller, with sorted free times that dominate the other's componentwise |
| `ImpactQueue.MoreCapacityNeverDelays` | src/shiftzero/impact.py:135-149 | then no pallet starts or finishes later |
| `ImpactQueue.MoreCapacityNeverRaisesBacklog` | src/shiftzero/impact.py:146-150 | and the backlog is no larger |
| `ToolCalls.TokenFactoryProvider.CallTool` | src/shiftzero/agent.py:372-479 | for every reply sequence the call ends within 2 x (retries + 1) posts; on success posts are 1 + retries + repairs with at most one repair; every post is made at its own clock reading and within the time budget, and the call runs out of budget only at a reading that is past it; no post is made before an opened circuit's cooldown ends |
| `ToolCalls.TokenFactoryProvider.SendWithRetries` | src/shiftzero/agent.py:390-416 | one round stops at the first reply that is not retried, after the allowed attempts, or before the post whose reading is past the budget |
| `ToolCalls.TokenFactoryProvider.RegisterFailure` | src/shiftzero/agent.py:481-486 | counts a failure and opens the circuit at the threshold and beyond |
| `ToolCalls.RoundsAddUp` | src/shiftzero/agent.py:386-449 | rounds add up to the accounts of the whole call |

## Left out

- Rounding of energy, cost and duration to three digits, and floating point: quantities are exact reals.
- Two parallel edges of equal length: comparing their heap entries raises in the program; here the tie is broken
  arbitrarily, and the route's nodes are proved not to depend on it.
- AGV headings, obstacle geometry, location kinds and other display fields.
- SHA-256 and JSON: digests of goals, routes and approvals are kept as their content, and the recorder's hash is a
  parameter. The proposal hash is an arbitrary identifier that comes with the proposal.
- Snapshot lists with repeated identifiers, and snapshots that share location and pallet objects with the world: a
  snapshot is a value, keyed by identifier.
- Mission fields that no decision reads: proposal, map version, snapshot and proof hash; the role that an approval
  records, the rejection reason, the recovery record, latencies and the final operation metrics.
- Trace spans other than accepted and committed operations, transitions and telemetry; the trace files and exports.
- Plant.SimulatorAdapter.Deliver: a refused load is taken to stay assigned, because the validator runs after the
  assignment. No mission that the service dispatches meets this (`SessionSteps.MovedKeeps`).
- Plant.SimulatorAdapter.AdvanceMission: a mission built with a negative node index is refused; the program would count
  it from the end of the route. Missions start at index 0.
- MissionServices.MissionService.Serve: one method for the eight request methods of the service, which share their
  frame and differ in the operation in the middle; the planner outcome named in the request is not looked at.
- MissionServices.MissionService.BeginOperation: also looks the session up and checks the role, which the program does
  just before it.
- Concurrent calls to the mission service: its lock makes them one at a time, and so does the model. The ledger, which
  is shared between processes, is modelled as interleaved steps.
- Ledger.ExactlyOnce: a statement that fails because the database is locked counts as a crash of that client.
- The audit rows of the ledger, listing and schema set-up.
- Intent parsing, prompts, response fields and the fixture provider: the provider is an arbitrary source of intents,
  proposals and recovery decisions.
- The assumptions, percentiles and averages of the load report; the real-AGV adapter; HTTP, command line, settings,
  bundles, reports and the web front end.
