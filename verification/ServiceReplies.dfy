/** What the service answers to each request, and what a commit does, in their own terms. */
module ServiceReplies {
  import opened Domain
  import opened Workflow
  import opened Planning
  import opened Safety
  import opened Sessions
  import opened SessionInvariant
  import opened SessionSteps
  import opened SessionEffects
  import opened SessionOutcomes
  import opened SessionMotion
  import opened SessionForms
  import opened Service
  import opened ServiceRuns
  import opened ServiceLives
  import Plant

  // ---- Answers ----

  /** A preparation names its session, a decision its proposal, and every other request its mission. */
  ghost predicate Names(v: ServiceState, r: Request, sid: Id) {
    && sid in v.sessions
    && match r.op
       case Prepare(_, _, _) => r.target == sid
       case Approve(_, _, _, _, _) => r.target in v.proposals && v.proposals[r.target] == sid
       case Reject => r.target in v.proposals && v.proposals[r.target] == sid
       case _ => r.target in v.missions && v.missions[r.target] == sid
  }

  /** The roles in which each operation may be asked for. Anybody may prepare. */
  ghost predicate InRole(r: Request) {
    match r.op
    case Prepare(_, _, _) => true
    case Approve(_, _, _, _, _) => r.role in {"approver", "admin"}
    case Reject => r.role in {"approver", "admin"}
    case Start(_) => r.role in {"executor", "admin"}
    case Stop(_, _) => r.role in {"safety", "executor", "admin"}
    case Replan(_, _, _, _) => r.role in {"operator", "executor", "admin"}
    case Resume(_) => r.role in {"executor", "admin"}
    case Override => r.role in {"safety", "admin"}
  }

  /** Two requests with one operation and key are the same input: they name the same thing, by the same
      caller in the same role unless they prepare, with the same trigger, reason or node. */
  ghost predicate SameInput(a: Request, b: Request) {
    && a.op.Name() == b.op.Name() && a.key == b.key && a.target == b.target
    && (!a.op.Prepare? ==> a.actor == b.actor && a.role == b.role)
    && (a.op.Stop? ==> b.op.Stop? && a.op.trigger == b.op.trigger)
    && (a.op.Reject? || a.op.Replan? || a.op.Override? ==> a.detail == b.detail)
  }

  lemma KeyAndPayload(a: Request, b: Request)
    ensures a.OperationKey() == b.OperationKey() <==> a.op.Name() == b.op.Name() && a.key == b.key
    ensures a.OperationKey() == b.OperationKey() ==> (a.Payload() == b.Payload() <==> SameInput(a, b))
  {
  }

  /** A request about nothing known, or in no role that may ask for it, is refused as such. One whose key was
      committed is answered from the receipt, if that is for the same input and session, and otherwise
      conflicts, as does one that saw another version. Every other is carried out, and commits or fails. */
  lemma {:induction false} RepliesMean(site: Site, v: ServiceState, r: Request)
    ensures var (w, reply) := Handle(site, v, r);
      && (reply == Unknown <==> forall sid :: !Names(v, r, sid))
      && forall sid :: Names(v, r, sid) ==>
           var key := Key(r.op.Name(), r.key);
           var receipt := Receipt(r.Payload(), sid);
           && (reply == Forbidden <==> !InRole(r))
           && (InRole(r) && key in v.operations ==>
                reply == if v.operations[key] == receipt then Replayed(sid) else Conflict)
           && (InRole(r) && key !in v.operations && r.expected != v.sessions[sid].version ==> reply == Conflict)
           && (InRole(r) && key !in v.operations && r.expected == v.sessions[sid].version ==>
                 var (t, result) := Attempt(site, v.sessions[sid], r.target, r.op);
                 && w.sessions == v.sessions[sid := t]
                 && match result
                    case Done =>
                      && reply == Reply.Committed(sid, r.op.Name()) && w.operations == v.operations[key := receipt]
                      && w.pending == v.pending - {key}
                      && w.proposals == (if r.op.Prepare? && t.proposal.Some?
                           then v.proposals[t.proposal.value.id := sid] else v.proposals)
                      && w.missions == (if r.op.Approve? && t.mission.Some?
                           then v.missions[t.mission.value.id := sid] else v.missions)
                    case Raised(why) =>
                      && reply == Failed(sid, why) && w.operations == v.operations
                      && w.pending == v.pending[key := receipt]
                      && w.proposals == v.proposals && w.missions == v.missions)
  {
    hide Attempt, Request.Payload, Filed, Names;
    NamedIsLocated(v, r);
    if Locate(v, r).Some? {
      var sid := Locate(v, r).value;
      FiledMeans(v, r, sid, Attempt(site, v.sessions[sid], r.target, r.op).0);
    }
  }

  lemma FiledMeans(v: ServiceState, r: Request, sid: Id, t: Session)
    ensures var w, key := Filed(v, r, sid, t), Key(r.op.Name(), r.key);
      && w.sessions == v.sessions[sid := t] && w.operations == v.operations[key := Receipt(r.Payload(), sid)]
      && w.pending == v.pending - {key}
      && w.proposals == (if r.op.Prepare? && t.proposal.Some?
           then v.proposals[t.proposal.value.id := sid] else v.proposals)
      && w.missions == (if r.op.Approve? && t.mission.Some?
           then v.missions[t.mission.value.id := sid] else v.missions)
  {
    hide Request.Payload;
  }

  lemma NamedIsLocated(v: ServiceState, r: Request)
    ensures forall sid :: Names(v, r, sid) <==> Locate(v, r) == Some(sid)
    ensures MayCall(r.role, r.op.Name()) <==> InRole(r)
  {
  }

  /** Once a request has committed, any later one with its operation and key is answered from the receipt
      exactly when it is about the same session with the same input; otherwise it conflicts. */
  lemma {:induction false} ReplaysExactly(sc: Scenario, v: ServiceState, r: Request, calls: seq<Call>, later: Request,
    sid: Id)
    requires ScenarioOk(sc) && ServiceOk(sc.site, v) && Admissible(sc, v, Ask(r))
    requires Handle(sc.site, v, r).1.Committed? && Legal(sc, Handle(sc.site, v, r).0, calls)
    requires later.op.Name() == r.op.Name() && later.key == r.key && InRole(later)
    requires Names(After(sc, Handle(sc.site, v, r).0, calls), later, sid)
    ensures var w := After(sc, Handle(sc.site, v, r).0, calls);
      Handle(sc.site, w, later) ==
        (w, if sid == Handle(sc.site, v, r).1.session && SameInput(r, later) then Replayed(sid) else Conflict)
  {
    hide ServiceOk, Attempt, Legal, After, Admissible, Evolves, Request.Payload, SameInput;
    KeyAndPayload(r, later);
    HandleKeeps(sc, v, r);
    var v' := Handle(sc.site, v, r).0;
    RunKeeps(sc, v', calls);
    var w := After(sc, v', calls);
    CommitFiles(sc.site, v, r);
    assert r.OperationKey() in v'.operations;
    assert w.operations[r.OperationKey()] == Receipt(r.Payload(), Handle(sc.site, v, r).1.session);
    NamedIsLocated(w, later);
  }

  lemma CommitFiles(site: Site, v: ServiceState, r: Request)
    requires Handle(site, v, r).1.Committed?
    ensures var (w, reply) := Handle(site, v, r);
      r.OperationKey() in w.operations && w.operations[r.OperationKey()] == Receipt(r.Payload(), reply.session)
  {
    hide Attempt, Request.Payload;
  }

  // ---- Commits ----

  /** Accepted first and committed last, an operation moves the version on by one, and the version of the
      session's mission with it; one that raises stays as it was left, its acceptance on the trace. */
  lemma {:induction false} AttemptForm(site: Site, s: Session, id: Id, op: Operation)
    ensures var (t, result) := Perform(site, s.(trace := s.trace + [Accepted(op.Name())]), id, op);
      Attempt(site, s, id, op) ==
        match result
        case Done =>
          (t.(version := s.version + 1,
              mission := if t.mission.None? then None else Some(t.mission.value.(version := s.version + 1)),
              trace := t.trace + [Span.Committed(op.Name(), s.version + 1)]), Done)
        case Raised(_) => (t, result)
  {
    hide Perform;
    PerformKeepsVersion(site, s.Log(Accepted(op.Name())), id, op);
  }

  /** From which states each operation commits, and through which it goes. */
  ghost predicate GoesBy(name: OperationName, before: seq<MissionStatus>, after: seq<MissionStatus>)
    requires before != []
  {
    var current := before[|before| - 1];
    match name
    case PREPARE => current == INTENT && after == before + [OBSERVED, PLANNED, PROPOSED, VERIFIED]
    case APPROVE => current == VERIFIED && after == before + [APPROVED]
    case REJECT => current == VERIFIED && after == before + [REJECTED]
    case START => current == APPROVED && after == before + [EXECUTING]
    case STOP => current == EXECUTING && after == before + [BLOCKED, SAFE_STOP]
    case REPLAN => current == SAFE_STOP && after == before + [REPLANNING, VERIFIED]
    case RESUME => current == VERIFIED && after == before + [EXECUTING, COMPLETED]
    case OVERRIDE => (current == SAFE_STOP || current == VERIFIED) && after == before + [FAILED_SAFE]
  }

  lemma PerformGoesBy(site: Site, s: Session, id: Id, op: Operation)
    requires Inv(site, s) && Perform(site, s, id, op).1 == Done
    ensures var t := Perform(site, s, id, op).0;
      && s.flow.history != [] && s.flow.history[|s.flow.history| - 1] == s.flow.current
      && GoesBy(op.Name(), s.flow.history, t.flow.history)
      && (op.Override? ==> t.approval == None)
  {
    hide Inv, DoPrepare, DoApprove, DoReject, DoStart, DoStop, DoReplan, DoResume, DoOverride, RouteProof, BindApproval,
      Plant.Capture, Plant.Start, Plant.Advance, ValidFor, Dispatched, HasExecuted;
    CurrentIsLast(site, s);
    match op
    case Prepare(now, planned, proposed) => PrepareForm(site, s, now, planned, proposed);
    case Approve(actor, token, missionId, issuedAt, checkedAt) =>
      ApproveForm(site, s, actor, token, missionId, issuedAt, checkedAt);
    case Reject => RefusalForms(s);
    case Start(now) => StartForm(site, s, id, now);
    case Stop(trigger, now) => StopForm(site, s, id, trigger, now);
    case Replan(now, recovery, planned, checkedAt) => ReplanForm(site, s, now, recovery, planned, checkedAt);
    case Resume(now) => ResumeForm(site, s, id, now);
    case Override => RefusalForms(s);
  }

  lemma CurrentIsLast(site: Site, s: Session)
    requires Inv(site, s)
    ensures s.flow.history != [] && s.flow.history[|s.flow.history| - 1] == s.flow.current
  {
    hide StageOk, CargoOk, AdapterOk, CopyOk, MovesOk, ReplanOk, TraceOk, ApprovedFirst;
  }

  /** Every request that commits was asked for in a role of its operation, and took the session from a state
      in which it may by exactly its states; an override leaves no approval. */
  lemma {:induction false} CommitMeans(sc: Scenario, v: ServiceState, r: Request)
    requires ServiceOk(sc.site, v) && Admissible(sc, v, Ask(r)) && Handle(sc.site, v, r).1.Committed?
    ensures var (w, reply) := Handle(sc.site, v, r);
      && Names(v, r, reply.session) && InRole(r) && reply.name == r.op.Name() && reply.session in w.sessions
      && var s, t := v.sessions[reply.session], w.sessions[reply.session];
        && s.flow.history != [] && GoesBy(r.op.Name(), s.flow.history, t.flow.history)
        && (r.op.Override? ==> t.approval == None && t.flow.current == FAILED_SAFE)
  {
    hide Attempt, SessionOk, Possible, Counted, Referring, GoesBy, Request.Payload;
    RepliesMean(sc.site, v, r);
    NamedIsLocated(v, r);
    var sid := Handle(sc.site, v, r).1.session;
    assert SessionOk(sc.site, v.sessions[sid]);
    AttemptGoesBy(sc.site, v.sessions[sid], r.target, r.op);
  }

  lemma AttemptGoesBy(site: Site, s: Session, id: Id, op: Operation)
    requires SessionOk(site, s) && Attempt(site, s, id, op).1 == Done
    ensures var t := Attempt(site, s, id, op).0;
      && s.flow.history != [] && GoesBy(op.Name(), s.flow.history, t.flow.history)
      && (op.Override? ==> t.approval == None && t.flow.current == FAILED_SAFE)
  {
    hide Inv, Standing, CompletedOk, MotionOk, TraceExact, Evolves, Perform, GoesBy;
    LogKeeps(site, s, Accepted(op.Name()));
    PerformGoesBy(site, s.Log(Accepted(op.Name())), id, op);
    SuccessReachesGoal(site, s.Log(Accepted(op.Name())), id, op);
  }

  // ---- Overrides ----

  /** A session with a committed override has no approval, and stays failed. */
  ghost predicate Withdrawn(s: Session) {
    OVERRIDE in Commits(s.trace) ==> s.approval == None && s.flow.current == FAILED_SAFE
  }

  lemma {:induction false} AttemptWithdraws(site: Site, s: Session, id: Id, op: Operation)
    requires SessionOk(site, s) && Possible(site, s, op) && Withdrawn(s)
    ensures Withdrawn(Attempt(site, s, id, op).0)
  {
    hide Inv, Standing, CompletedOk, MotionOk, TraceExact, Evolves, Perform, Possible, Commits, GoesBy;
    var s1 := s.Log(Accepted(op.Name()));
    LogKeeps(site, s, Accepted(op.Name()));
    SamePossible(site, s, s1, op);
    TraceGrows(s.trace, Accepted(op.Name()));
    PerformCommitsNothing(site, s1, id, op);
    var (t, result) := Perform(site, s1, id, op);
    TraceGrows(t.trace, Span.Committed(op.Name(), t.version + 1));
    if s.flow.current == FAILED_SAFE {
      FinalStatesAreFrozen(site, s1, id, op);
    } else if result.Done? {
      AttemptGoesBy(site, s, id, op);
      NameIsOverride(op);
    }
  }

  lemma NameIsOverride(op: Operation)
    ensures op.Name() == OVERRIDE <==> op.Override?
  {
  }

  /** In every run a session for which an override was committed is in FAILED_SAFE without an approval. */
  lemma {:induction false} OverrideWithdraws(sc: Scenario, calls: seq<Call>, v: ServiceState, sid: Id)
    requires Reached(sc, calls, v) && sid in v.sessions
    ensures OVERRIDE in Commits(v.sessions[sid].trace) ==>
      v.sessions[sid].approval == None && v.sessions[sid].flow.current == FAILED_SAFE
  {
    hide ServiceOk, Withdrawn, Attempt, Admissible;
    if calls != [] {
      var before, c := calls[..|calls| - 1], calls[|calls| - 1];
      var u := After(sc, EMPTY, before);
      ReachedOk(sc, before, u);
      if sid in u.sessions {
        OverrideWithdraws(sc, before, u, sid);
        assert Withdrawn(u.sessions[sid]) by {
          IsWithdrawn(u.sessions[sid]);
        }
        ApplyWithdraws(sc, u, c, sid);
        MeansWithdrawn(v.sessions[sid]);
      } else {
        NewHasNoCommits(sc, u, c, sid);
      }
    }
  }

  lemma IsWithdrawn(s: Session)
    requires OVERRIDE in Commits(s.trace) ==> s.approval == None && s.flow.current == FAILED_SAFE
    ensures Withdrawn(s)
  {
  }

  lemma MeansWithdrawn(s: Session)
    requires Withdrawn(s)
    ensures OVERRIDE in Commits(s.trace) ==> s.approval == None && s.flow.current == FAILED_SAFE
  {
  }

  lemma ApplyWithdraws(sc: Scenario, v: ServiceState, c: Call, sid: Id)
    requires ServiceOk(sc.site, v) && Admissible(sc, v, c) && sid in v.sessions && Withdrawn(v.sessions[sid])
    ensures sid in Apply(sc, v, c).0.sessions && Withdrawn(Apply(sc, v, c).0.sessions[sid])
  {
    hide SessionOk, Withdrawn, Attempt, Possible, Counted, Referring;
    if c.Ask? && Admitted(v, c.request, sid) {
      assert SessionOk(sc.site, v.sessions[sid]);
      AttemptWithdraws(sc.site, v.sessions[sid], c.request.target, c.request.op);
    } else {
      CallElsewhere(sc, v, c, sid);
    }
  }

  lemma NewHasNoCommits(sc: Scenario, v: ServiceState, c: Call, sid: Id)
    requires sid !in v.sessions && sid in Apply(sc, v, c).0.sessions
    ensures Commits(Apply(sc, v, c).0.sessions[sid].trace) == []
  {
    hide Attempt;
  }

  // ---- Every commit was asked for ----

  /** Call `k` of a run asked for this operation on the session, in a role that may, and committed it. */
  ghost predicate AskedFor(sc: Scenario, calls: seq<Call>, sid: Id, name: OperationName, k: nat) {
    && k < |calls| && calls[k].Ask? && calls[k].request.op.Name() == name && InRole(calls[k].request)
    && Apply(sc, After(sc, EMPTY, calls[..k]), calls[k]).1 == Reply.Committed(sid, name)
  }

  lemma AskedStays(sc: Scenario, calls: seq<Call>, c: Call, sid: Id, name: OperationName, k: nat)
    requires AskedFor(sc, calls, sid, name, k)
    ensures AskedFor(sc, calls + [c], sid, name, k)
  {
    hide Apply, After;
    assert (calls + [c])[..k] == calls[..k];
  }

  /** One request adds its operation to the commits of its session when it commits, and nothing otherwise. */
  lemma {:induction false} AttemptCommits(site: Site, s: Session, id: Id, op: Operation)
    requires SessionOk(site, s) && Possible(site, s, op)
    ensures var (t, result) := Attempt(site, s, id, op);
      Commits(t.trace) == Commits(s.trace) + if result == Done then [op.Name()] else []
  {
    hide Inv, Standing, CompletedOk, MotionOk, TraceExact, Evolves, Perform, Possible, Commits;
    var s1 := s.Log(Accepted(op.Name()));
    LogKeeps(site, s, Accepted(op.Name()));
    SamePossible(site, s, s1, op);
    TraceGrows(s.trace, Accepted(op.Name()));
    PerformCommitsNothing(site, s1, id, op);
    var (t, result) := Perform(site, s1, id, op);
    TraceGrows(t.trace, Span.Committed(op.Name(), t.version + 1));
  }

  /** In every run each operation that a session's trace shows as committed was asked for, in one of its
      roles, by a call that committed it. */
  lemma {:induction false} EveryCommitWasAsked(sc: Scenario, calls: seq<Call>, v: ServiceState, sid: Id, i: nat)
    returns (k: nat)
    requires Reached(sc, calls, v) && sid in v.sessions && i < |Commits(v.sessions[sid].trace)|
    ensures AskedFor(sc, calls, sid, Commits(v.sessions[sid].trace)[i], k)
  {
    hide ServiceOk, Attempt, Admissible, Commits, AskedFor, Possible;
    if calls == [] {
      assert false;
    }
    var before, c := calls[..|calls| - 1], calls[|calls| - 1];
    var u := After(sc, EMPTY, before);
    assert calls == before + [c];
    ReachedOk(sc, before, u);
    if sid !in u.sessions {
      NewHasNoCommits(sc, u, c, sid);
      assert false;
    }
    CallCommits(sc, u, c, sid);
    if i < |Commits(u.sessions[sid].trace)| {
      k := EveryCommitWasAsked(sc, before, u, sid, i);
      AskedStays(sc, before, c, sid, Commits(u.sessions[sid].trace)[i], k);
    } else {
      k := |before|;
      LastWasAsked(sc, before, c.request, sid);
    }
  }

  lemma CallCommits(sc: Scenario, v: ServiceState, c: Call, sid: Id)
    requires ServiceOk(sc.site, v) && Admissible(sc, v, c) && sid in v.sessions
    ensures sid in Apply(sc, v, c).0.sessions
    ensures var (w, reply) := Apply(sc, v, c);
      var before, after := Commits(v.sessions[sid].trace), Commits(w.sessions[sid].trace);
      || after == before
      || (c.Ask? && reply == Reply.Committed(sid, c.request.op.Name()) && after == before + [c.request.op.Name()])
  {
    hide SessionOk, Attempt, Possible, Counted, Referring, Commits;
    if c.Ask? && Admitted(v, c.request, sid) {
      assert SessionOk(sc.site, v.sessions[sid]);
      AttemptCommits(sc.site, v.sessions[sid], c.request.target, c.request.op);
    } else {
      CallElsewhere(sc, v, c, sid);
    }
  }

  lemma LastWasAsked(sc: Scenario, calls: seq<Call>, r: Request, sid: Id)
    requires var u := After(sc, EMPTY, calls);
      ServiceOk(sc.site, u) && Admissible(sc, u, Ask(r)) && Apply(sc, u, Ask(r)).1 == Reply.Committed(sid, r.op.Name())
    ensures AskedFor(sc, calls + [Ask(r)], sid, r.op.Name(), |calls|)
  {
    hide ServiceOk, Handle, Admissible, After, GoesBy, Names;
    CommitMeans(sc, After(sc, EMPTY, calls), r);
    assert (calls + [Ask(r)])[..|calls|] == calls;
  }
}
