/** The lives of all sessions over the runs from the empty service, and the requests behind them. */
module ServiceLives {
  import opened Domain
  import opened Workflow
  import opened Safety
  import opened Sessions
  import opened SessionInvariant
  import opened SessionSteps
  import opened SessionEffects
  import opened SessionOutcomes
  import opened SessionMotion
  import opened SessionLives
  import opened Service
  import opened ServiceRuns
  import Plant

  /** Every session lived since it was created, and every mission that can be named was approved and, as
      long as its session has not executed, is the one that waits. */
  ghost predicate LivesOk(sc: Scenario, v: ServiceState) {
    && (forall sid :: sid in v.sessions ==> Lived(sc.site, sc.world, v.sessions[sid]))
    && (forall m :: m in v.missions && v.missions[m] in v.sessions ==> Awaits(v.sessions[v.missions[m]], m))
  }

  // ---- One attempt ----

  lemma BookkeepingLives(site: Site, world: Plant.World, s: Session, t: Session)
    requires Lived(site, world, s) && Bookkeeping(s, t) && Evolves(s, t)
    ensures Lived(site, world, t)
  {
    hide MovesLogged, KeepsMission, KeepsLoads, EndsRecovered;
    EvolvesTransitive(New(world, s.intent), s, t);
  }

  lemma BookkeepingAwaits(s: Session, t: Session, mission: Id)
    requires Awaits(s, mission) && Bookkeeping(s, t)
    ensures Awaits(t, mission)
  {
  }

  lemma BookkeepingNames(s: Session, t: Session, id: Id)
    requires (s.mission.Some? ==> Named(s, id)) && Bookkeeping(s, t)
    ensures t.mission.Some? ==> Named(t, id)
  {
  }

  lemma {:induction false} AttemptLives(site: Site, world: Plant.World, s: Session, id: Id, op: Operation)
    requires SessionOk(site, s) && Possible(site, s, op) && Lived(site, world, s)
    requires op.Start? && s.mission.Some? ==> Named(s, id)
    ensures Lived(site, world, Attempt(site, s, id, op).0)
  {
    hide Inv, Standing, CompletedOk, MotionOk, TraceExact, Evolves, Perform, Possible, Lived, Bookkeeping, Named;
    var s1 := s.Log(Accepted(op.Name()));
    LogKeeps(site, s, Accepted(op.Name()));
    BookkeepingLives(site, world, s, s1);
    SamePossible(site, s, s1, op);
    if op.Start? {
      BookkeepingNames(s, s1, id);
    }
    PerformLives(site, world, s1, id, op);
    PerformIsSound(site, s1, id, op);
    var (t, result) := Perform(site, s1, id, op);
    if result.Done? {
      FinishKeeps(site, t, op.Name());
      BookkeepingLives(site, world, t, Finish(t, op.Name()));
    }
  }

  lemma {:induction false} AttemptAwaits(site: Site, s: Session, id: Id, op: Operation, mission: Id)
    requires SessionOk(site, s) && Possible(site, s, op) && Awaits(s, mission)
    ensures Awaits(Attempt(site, s, id, op).0, mission)
  {
    hide Inv, Standing, CompletedOk, MotionOk, TraceExact, Evolves, Perform, Possible, Awaits, Bookkeeping;
    var s1 := s.Log(Accepted(op.Name()));
    LogKeeps(site, s, Accepted(op.Name()));
    BookkeepingAwaits(s, s1, mission);
    SamePossible(site, s, s1, op);
    AwaitsKept(site, s1, id, op, mission);
    PerformIsSound(site, s1, id, op);
    var (t, result) := Perform(site, s1, id, op);
    if result.Done? {
      FinishKeeps(site, t, op.Name());
      BookkeepingAwaits(t, Finish(t, op.Name()), mission);
    }
  }

  /** A committed approval makes its mission the one that waits. */
  lemma ApprovedAwaits(site: Site, s: Session, id: Id, op: Operation)
    requires Attempt(site, s, id, op).1 == Done && op.Approve?
    ensures Awaits(Attempt(site, s, id, op).0, op.missionId)
  {
    hide BindApproval, IssueApproval;
  }

  // ---- Calls and runs ----

  lemma {:induction false} AskLives(sc: Scenario, v: ServiceState, r: Request, sid: Id)
    requires ServiceOk(sc.site, v) && LivesOk(sc, v) && Admissible(sc, v, Ask(r)) && Admitted(v, r, sid)
    ensures Lived(sc.site, sc.world, Attempt(sc.site, v.sessions[sid], r.target, r.op).0)
    ensures forall m :: m in v.missions && v.missions[m] == sid ==>
      Awaits(Attempt(sc.site, v.sessions[sid], r.target, r.op).0, m)
  {
    hide SessionOk, Lived, Awaits, Named, Attempt, Possible, Counted, Referring;
    var s := v.sessions[sid];
    assert SessionOk(sc.site, s);
    if r.op.Start? {
      assert r.target in v.missions && v.missions[r.target] == sid;
      AwaitedIsNamed(s, r.target);
    }
    AttemptLives(sc.site, sc.world, s, r.target, r.op);
    forall m | m in v.missions && v.missions[m] == sid ensures Awaits(Attempt(sc.site, s, r.target, r.op).0, m) {
      AttemptAwaits(sc.site, s, r.target, r.op, m);
    }
  }

  lemma AwaitedIsNamed(s: Session, id: Id)
    requires Awaits(s, id)
    ensures Named(s, id)
  {
  }

  lemma {:induction false} ApplyLives(sc: Scenario, v: ServiceState, c: Call)
    requires ScenarioOk(sc) && ServiceOk(sc.site, v) && LivesOk(sc, v) && Admissible(sc, v, c)
    ensures LivesOk(sc, Apply(sc, v, c).0)
  {
    hide SessionOk, Lived, Awaits, Attempt, Possible, Counted;
    match c
    case Create(id, intent) => NewLives(sc, intent);
    case Ask(r) =>
      if Locate(v, r).Some? && Admitted(v, r, Locate(v, r).value) {
        var sid := Locate(v, r).value;
        AskLives(sc, v, r, sid);
        if Attempt(sc.site, v.sessions[sid], r.target, r.op).1.Done? {
          CommittedPapers(sc.site, v.sessions[sid], r.target, r.op);
          if r.op.Approve? {
            ApprovedAwaits(sc.site, v.sessions[sid], r.target, r.op);
          }
        }
      }
  }

  lemma NewLives(sc: Scenario, intent: Intent)
    requires ScenarioOk(sc)
    ensures Lived(sc.site, sc.world, New(sc.world, intent))
  {
    hide Inv, Evolves;
    NewSessionOk(sc.site, sc.world, intent);
    EvolvesReflexive(sc.site, New(sc.world, intent));
  }

  lemma {:induction false} RunLives(sc: Scenario, calls: seq<Call>, v: ServiceState)
    requires Reached(sc, calls, v)
    ensures LivesOk(sc, v)
  {
    hide LivesOk, ServiceOk, Apply, Admissible;
    if calls == [] {
      NothingLives(sc);
    } else {
      var before := calls[..|calls| - 1];
      var u := After(sc, EMPTY, before);
      RunLives(sc, before, u);
      ReachedOk(sc, before, u);
      ApplyLives(sc, u, calls[|calls| - 1]);
    }
  }

  lemma NothingLives(sc: Scenario)
    ensures LivesOk(sc, EMPTY)
  {
  }

  // ---- Who approved and who ordered ----

  /** Call `j` of a run, by an approver, commits and issues this approval for the session. */
  ghost predicate Granted(sc: Scenario, calls: seq<Call>, sid: Id, a: Approval, j: nat) {
    && j < |calls| && calls[j].Ask?
    && var r := calls[j].request;
      && r.op.Approve? && r.role in {"approver", "admin"}
      && Apply(sc, After(sc, EMPTY, calls[..j]), calls[j]).1 == Reply.Committed(sid, APPROVE)
      && a.content.actor == r.actor && a.content.tokenId == r.op.token && a.content.issuedAt == r.op.issuedAt
  }

  /** Call `k` of a run, by an executor, starts or resumes the session, and makes its `i`-th motion. */
  ghost predicate Ordered(sc: Scenario, calls: seq<Call>, sid: Id, i: nat, k: nat) {
    && k < |calls| && calls[k].Ask?
    && var r := calls[k].request;
      var v, (w, reply) := After(sc, EMPTY, calls[..k]), Apply(sc, After(sc, EMPTY, calls[..k]), calls[k]);
      && (r.op.Start? || r.op.Resume?) && r.role in {"executor", "admin"}
      && reply == Reply.Committed(sid, r.op.Name())
      && sid in v.sessions && sid in w.sessions && |v.sessions[sid].moves| <= i < |w.sessions[sid].moves|
  }

  ghost predicate Licensed(sc: Scenario, calls: seq<Call>, sid: Id, s: Session) {
    && (s.approval.Some? ==> exists j :: Granted(sc, calls, sid, s.approval.value, j))
    && (forall i :: 0 <= i < |s.moves| ==> MotionLicensed(sc, calls, sid, i, s.moves[i].auth.approval))
  }

  /** The motion was ordered after its approval was granted. */
  ghost predicate MotionLicensed(sc: Scenario, calls: seq<Call>, sid: Id, i: nat, a: Approval) {
    exists j, k :: Granted(sc, calls, sid, a, j) && Ordered(sc, calls, sid, i, k) && j < k
  }

  lemma GrantStays(sc: Scenario, calls: seq<Call>, c: Call, sid: Id, a: Approval, j: nat)
    requires Granted(sc, calls, sid, a, j)
    ensures Granted(sc, calls + [c], sid, a, j)
  {
    hide Apply, After;
    assert (calls + [c])[..j] == calls[..j];
  }

  lemma OrderStays(sc: Scenario, calls: seq<Call>, c: Call, sid: Id, i: nat, k: nat)
    requires Ordered(sc, calls, sid, i, k)
    ensures Ordered(sc, calls + [c], sid, i, k)
  {
    hide Apply, After;
    assert (calls + [c])[..k] == calls[..k];
  }

  lemma MotionStaysLicensed(sc: Scenario, calls: seq<Call>, c: Call, sid: Id, i: nat, a: Approval)
    requires MotionLicensed(sc, calls, sid, i, a)
    ensures MotionLicensed(sc, calls + [c], sid, i, a)
  {
    hide Granted, Ordered;
    var j, k :| Granted(sc, calls, sid, a, j) && Ordered(sc, calls, sid, i, k) && j < k;
    GrantStays(sc, calls, c, sid, a, j);
    OrderStays(sc, calls, c, sid, i, k);
  }

  lemma LicenceStays(sc: Scenario, calls: seq<Call>, c: Call, sid: Id, s: Session)
    requires Licensed(sc, calls, sid, s)
    ensures Licensed(sc, calls + [c], sid, s)
  {
    hide Granted, MotionLicensed;
    if s.approval.Some? {
      var j :| Granted(sc, calls, sid, s.approval.value, j);
      GrantStays(sc, calls, c, sid, s.approval.value, j);
    }
    forall i | 0 <= i < |s.moves| ensures MotionLicensed(sc, calls + [c], sid, i, s.moves[i].auth.approval) {
      MotionStaysLicensed(sc, calls, c, sid, i, s.moves[i].auth.approval);
    }
  }

  /** What one attempt can do to the approval and the motions. */
  ghost predicate OrderedStep(s: Session, t: Session, op: Operation, result: Result) {
    && (|| t.approval == s.approval || t.approval == None
        || (op.Approve? && result == Done && t.approval.Some? && t.approval.value.content.actor == op.actor
            && t.approval.value.content.tokenId == op.token && t.approval.value.content.issuedAt == op.issuedAt))
    && (t.moves == s.moves
        || ((op.Start? || op.Resume?) && result == Done && s.approval.Some? && s.moves <= t.moves
            && Under(t.moves, |s.moves|, s.approval.value)))
  }

  lemma {:induction false} AttemptIsOrdered(site: Site, s: Session, id: Id, op: Operation)
    requires SessionOk(site, s)
    ensures OrderedStep(s, Attempt(site, s, id, op).0, op, Attempt(site, s, id, op).1)
  {
    hide Inv, Standing, CompletedOk, MotionOk, TraceExact, Evolves, Perform, Under;
    var s1 := s.Log(Accepted(op.Name()));
    LogKeeps(site, s, Accepted(op.Name()));
    ApprovalsAreGranted(site, s1, id, op);
    MotionsAreOrdered(site, s1, id, op);
  }

  /** The call that was just made licenses what it changed. */
  lemma {:induction false} StepLicensed(sc: Scenario, calls: seq<Call>, r: Request, sid: Id)
    requires var u := After(sc, EMPTY, calls);
      && ServiceOk(sc.site, u) && Admissible(sc, u, Ask(r)) && Admitted(u, r, sid)
      && Licensed(sc, calls, sid, u.sessions[sid])
    ensures var u := After(sc, EMPTY, calls);
      Licensed(sc, calls + [Ask(r)], sid, Attempt(sc.site, u.sessions[sid], r.target, r.op).0)
  {
    hide SessionOk, Attempt, Possible, Counted, Referring, After, Granted, Ordered, MotionLicensed;
    var u := After(sc, EMPTY, calls);
    var s := u.sessions[sid];
    var (t, result) := Attempt(sc.site, s, r.target, r.op);
    assert SessionOk(sc.site, s);
    LicenceStays(sc, calls, Ask(r), sid, s);
    AttemptIsOrdered(sc.site, s, r.target, r.op);
    if t.approval.Some? && t.approval != s.approval {
      ApprovalGranted(sc, calls, r, sid);
    }
    forall i | 0 <= i < |t.moves| ensures MotionLicensed(sc, calls + [Ask(r)], sid, i, t.moves[i].auth.approval) {
      if i < |s.moves| {
        assert t.moves[i] == s.moves[i];
      } else {
        var j :| Granted(sc, calls, sid, s.approval.value, j);
        NewMotionLicensed(sc, calls, r, sid, i, j);
      }
    }
  }

  lemma ApprovalGranted(sc: Scenario, calls: seq<Call>, r: Request, sid: Id)
    requires var u := After(sc, EMPTY, calls);
      && Admissible(sc, u, Ask(r)) && Admitted(u, r, sid)
      && var (t, result) := Attempt(sc.site, u.sessions[sid], r.target, r.op);
        && r.op.Approve? && result == Done && t.approval.Some? && t.approval.value.content.actor == r.op.actor
        && t.approval.value.content.tokenId == r.op.token && t.approval.value.content.issuedAt == r.op.issuedAt
    ensures var t := Attempt(sc.site, After(sc, EMPTY, calls).sessions[sid], r.target, r.op).0;
      Granted(sc, calls + [Ask(r)], sid, t.approval.value, |calls|)
  {
    hide Attempt, Possible, After;
    assert (calls + [Ask(r)])[..|calls|] == calls;
  }

  lemma NewMotionLicensed(sc: Scenario, calls: seq<Call>, r: Request, sid: Id, i: nat, j: nat)
    requires var u := After(sc, EMPTY, calls);
      && Admitted(u, r, sid)
      && var s, (t, result) := u.sessions[sid], Attempt(sc.site, u.sessions[sid], r.target, r.op);
        && (r.op.Start? || r.op.Resume?) && result == Done && s.approval.Some?
        && |s.moves| <= i < |t.moves| && t.moves[i].auth.approval == s.approval.value
        && Granted(sc, calls, sid, s.approval.value, j)
    ensures var t := Attempt(sc.site, After(sc, EMPTY, calls).sessions[sid], r.target, r.op).0;
      i < |t.moves| && MotionLicensed(sc, calls + [Ask(r)], sid, i, t.moves[i].auth.approval)
  {
    hide Attempt, After;
    var a := After(sc, EMPTY, calls).sessions[sid].approval.value;
    GrantStays(sc, calls, Ask(r), sid, a, j);
    assert (calls + [Ask(r)])[..|calls|] == calls;
    assert Ordered(sc, calls + [Ask(r)], sid, i, |calls|);
  }

  lemma {:induction false} RunLicensed(sc: Scenario, calls: seq<Call>, v: ServiceState, sid: Id)
    requires Reached(sc, calls, v) && sid in v.sessions
    ensures Licensed(sc, calls, sid, v.sessions[sid])
  {
    hide Licensed, ServiceOk, Attempt, Admissible;
    if calls != [] {
      var before, c := calls[..|calls| - 1], calls[|calls| - 1];
      var u := After(sc, EMPTY, before);
      assert calls == before + [c];
      ReachedOk(sc, before, u);
      if sid in u.sessions {
        RunLicensed(sc, before, u, sid);
        if c.Ask? && Admitted(u, c.request, sid) {
          StepLicensed(sc, before, c.request, sid);
        } else {
          CallElsewhere(sc, u, c, sid);
          LicenceStays(sc, before, c, sid, u.sessions[sid]);
        }
      } else {
        NewLicensed(sc, u, c, calls, sid);
      }
    }
  }

  /** A call about another session leaves this one alone. */
  lemma CallElsewhere(sc: Scenario, v: ServiceState, c: Call, sid: Id)
    requires sid in v.sessions && Admissible(sc, v, c) && !(c.Ask? && Admitted(v, c.request, sid))
    ensures sid in Apply(sc, v, c).0.sessions && Apply(sc, v, c).0.sessions[sid] == v.sessions[sid]
  {
    hide Attempt, Possible;
  }

  lemma NewLicensed(sc: Scenario, v: ServiceState, c: Call, calls: seq<Call>, sid: Id)
    requires sid !in v.sessions && sid in Apply(sc, v, c).0.sessions
    ensures Licensed(sc, calls, sid, Apply(sc, v, c).0.sessions[sid])
  {
    hide Attempt, Granted, MotionLicensed;
  }
}
