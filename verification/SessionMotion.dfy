/** The motions a session can have made: at most the first advance of its filed plan, and then, once
    completed, the whole of its filed replan. */
module SessionMotion {
  import opened Domain
  import opened Workflow
  import opened Planning
  import opened Safety
  import Plant
  import opened Sessions
  import opened SessionInvariant
  import opened SessionSteps
  import opened SessionEffects
  import opened SessionOutcomes

  /** On the filed plan and the snapshot it was made from. */
  ghost predicate Original(s: Session, auth: Authority) {
    s.plan == Some(auth.plan) && s.snapshot == Some(auth.snapshot)
  }

  /** On the filed replan, the snapshot it was made from, and its proof, which passed. */
  ghost predicate Renewed(s: Session, auth: Authority) {
    s.replan.Some? && s.replan.value == Replanned(auth.plan, s.replan.value.proof, auth.snapshot) &&
      s.replan.value.proof.passed
  }

  ghost predicate FirstMove(s: Session, moves: seq<Move>) {
    moves == [] ||
    (s.plan.Some? && |moves| == 1 && moves[0].node == s.plan.value.nodes[1] && Original(s, moves[0].auth))
  }

  ghost predicate MotionOk(s: Session) {
    if s.flow.current != COMPLETED then FirstMove(s, s.moves)
    else
      && s.replan.Some? && |s.replan.value.plan.nodes| - 1 <= |s.moves|
      && var nodes := s.replan.value.plan.nodes;
        var n := |s.moves| - (|nodes| - 1);
        var auth := s.moves[|s.moves| - 1].auth;
        && FirstMove(s, s.moves[..n]) && Continues(s.moves, nodes)
        && Renewed(s, auth) && s.moves[n..] == Along(nodes[1..], auth)
  }

  /** Nothing that a motion refers to has changed. */
  lemma MotionKept(s: Session, t: Session)
    requires MotionOk(s) && t.moves == s.moves && (t.flow.current == COMPLETED <==> s.flow.current == COMPLETED)
    requires s.moves != [] ==> t.plan == s.plan && t.snapshot == s.snapshot
    requires s.flow.current == COMPLETED ==> t.replan == s.replan
    ensures MotionOk(t)
  {
    hide Continues, FirstMove, Renewed;
    if s.flow.current == COMPLETED {
      var nodes := s.replan.value.plan.nodes;
      FirstMovesKept(s, t, s.moves[..|s.moves| - (|nodes| - 1)]);
      RenewedKept(s, t, s.moves[|s.moves| - 1].auth);
    } else {
      FirstMovesKept(s, t, s.moves);
    }
  }

  lemma FirstMovesKept(s: Session, t: Session, moves: seq<Move>)
    requires FirstMove(s, moves) && (moves != [] ==> t.plan == s.plan && t.snapshot == s.snapshot)
    ensures FirstMove(t, moves)
  {
  }

  lemma RenewedKept(s: Session, t: Session, auth: Authority)
    requires Renewed(s, auth) && t.replan == s.replan
    ensures Renewed(t, auth)
  {
  }

  lemma NothingMovedYet(site: Site, s: Session)
    requires Inv(site, s) && (s.flow.current == INTENT || !HasExecuted(s))
    ensures s.moves == []
  {
  }

  lemma PrepareKeepsMotion(site: Site, s: Session, now: real, planned: Outcome, proposed: Option<Proposal>)
    requires Inv(site, s) && MotionOk(s)
    ensures MotionOk(DoPrepare(site, s, now, planned, proposed).0)
  {
    hide Inv, RouteProof, Plant.Capture;
    if s.flow.current == INTENT {
      NothingMovedYet(site, s);
    }
  }

  lemma StartKeepsSnapshot(site: Site, s: Session, id: Id, now: real)
    ensures var (t, result) := DoStart(site, s, id, now);
      && t.snapshot == s.snapshot && t.plan == s.plan && (result.Raised? ==> t.moves == s.moves)
      && (t.flow.current == COMPLETED ==> t == s)
  {
    hide Plant.Start, Plant.Advance, Plant.StartLeft, Plant.AdvanceLeft;
  }

  lemma StartKeepsMotion(site: Site, s: Session, id: Id, now: real)
    requires Inv(site, s) && MotionOk(s)
    ensures MotionOk(DoStart(site, s, id, now).0)
  {
    hide Inv, DoStart, MotionOk, Original, Dispatched;
    StartKeepsSnapshot(site, s, id, now);
    StartCommits(site, s, id, now);
    var (t, result) := DoStart(site, s, id, now);
    if result.Done? {
      NothingMovedYet(site, s);
      ApprovedFacts(site, s);
      FirstStart(site, s, id, now);
      FirstMoveIsOriginal(site, s, t, now);
    } else if t != s {
      StartLeavesCompletion(site, s, id, now);
      MotionKept(s, t);
    }
  }

  lemma StartLeavesCompletion(site: Site, s: Session, id: Id, now: real)
    ensures s.flow.current == COMPLETED ==> DoStart(site, s, id, now).0 == s
  {
  }

  lemma FirstMoveIsOriginal(site: Site, s: Session, t: Session, now: real)
    requires Inv(site, s) && s.flow.current == APPROVED && s.approval.Some? && t.plan == s.plan &&
      t.snapshot == s.snapshot
    requires s.plan.Some? && s.snapshot.Some?
    requires t.moves == [Move(s.plan.value.nodes[1], FirstAuthority(s, now))] && t.flow.current == EXECUTING
    ensures MotionOk(t)
  {
  }

  lemma ResumeKeepsMotion(site: Site, s: Session, id: Id, now: real)
    requires Inv(site, s) && Standing(s) && MotionOk(s)
    ensures MotionOk(DoResume(site, s, id, now).0)
  {
    hide Inv, DoResume, FirstMove;
    if MayResume(s, now) && Plant.ReplaceRoute(s.plant, id, s.replan.value.plan).Some? {
      ResumeEffect(site, s, id, now);
      ResumeKeepsPapers(site, s, id, now);
      ResumeGuard(site, s, id, now);
      var t := DoResume(site, s, id, now).0;
      AppendedContinues(s, s.replan.value.plan.nodes, t.moves);
      FirstMovesKept(s, t, s.moves);
    } else {
      ResumeRefused(site, s, id, now);
    }
  }

  lemma ResumeRefused(site: Site, s: Session, id: Id, now: real)
    requires Inv(site, s) && !(MayResume(s, now) && Plant.ReplaceRoute(s.plant, id, s.replan.value.plan).Some?)
    ensures DoResume(site, s, id, now).0 == s
  {
    hide Inv;
    if MayResume(s, now) {
      FailedRerouteLeavesNothing(site, s, id, now);
    }
  }

  lemma PaperKeepsMotion(site: Site, s: Session, t: Session, id: Id, op: Operation)
    requires Inv(site, s) && MotionOk(s) && t == Perform(site, s, id, op).0
    requires op.Approve? || op.Reject? || op.Override? || op.Replan? || op.Stop?
    ensures MotionOk(t)
  {
    hide Inv, MotionOk, RouteProof, BindApproval, Plant.Capture, Plant.LocalStop, Plant.LocalStopLeft, Plant.Blocked;
    if s.flow.current == COMPLETED {
      FinalStatesAreFrozen(site, s, id, op);
    } else {
      MotionKept(s, t);
    }
  }

  /** Every operation keeps the shape of the motions, wherever it raises. */
  lemma {:induction false} PerformKeepsMotion(site: Site, s: Session, id: Id, op: Operation)
    requires Inv(site, s) && Standing(s) && MotionOk(s)
    ensures MotionOk(Perform(site, s, id, op).0)
  {
    hide Inv, MotionOk;
    match op
    case Prepare(now, planned, proposed) => PrepareKeepsMotion(site, s, now, planned, proposed);
    case Start(now) => StartKeepsMotion(site, s, id, now);
    case Resume(now) => ResumeKeepsMotion(site, s, id, now);
    case _ => PaperKeepsMotion(site, s, Perform(site, s, id, op).0, id, op);
  }

  /** A plan that the planner made from a snapshot of this very site. */
  ghost predicate Sourced(site: Site, s: Session, auth: Authority) {
    && auth.snapshot.nodes == site.nodes && auth.snapshot.edges == site.edges
    && exists start, force :: Plans(auth.snapshot, s.intent, start, force, Planned(auth.plan))
  }

  /** Every motion was made on the filed plan or the filed replan, which the planner made from a snapshot
      of the site and whose filed proof passed. */
  lemma {:induction false} MotionsAreSourced(site: Site, s: Session, i: nat)
    requires Inv(site, s) && MotionOk(s) && i < |s.moves|
    ensures var auth := s.moves[i].auth;
      && Sourced(site, s, auth)
      && ((Original(s, auth) && s.proposal.Some?
           && RouteProof(s.intent, auth.plan, auth.snapshot, s.proposal.value).passed)
          || Renewed(s, auth))
  {
    hide SafeRoute, Plans, RouteProof, FlowOk, ApprovedFirst, CargoOk, TraceOk;
    var auth := s.moves[i].auth;
    MoveIsFiled(s, i);
    if Original(s, auth) {
      assert Prepared(site, s);
      ProofPasses(s.intent, auth.plan, auth.snapshot, s.proposal.value);
    }
  }

  lemma MoveIsFiled(s: Session, i: nat)
    requires MotionOk(s) && i < |s.moves|
    ensures Original(s, s.moves[i].auth) || Renewed(s, s.moves[i].auth)
  {
    if s.flow.current == COMPLETED {
      var n := |s.moves| - (|s.replan.value.plan.nodes| - 1);
      if i < n {
        assert s.moves[i] == s.moves[..n][i];
      } else {
        assert s.moves[i] == s.moves[n..][i - n];
      }
    }
  }
}
