/** The durable operation ledger of storage.py, as a protocol over one shared table.

    Any number of clients, in any number of processes, interleave their steps. Only the primary key
    guards the insert, and the callback runs outside every lock. A callback succeeds when its response
    could be converted as well; when the conversion raises, it has failed, its row is deleted, and it may
    run again. A client may crash at any point; a statement that fails because the database is locked
    leaves the table as a crash at that point does. */
module Ledger {
  import opened Domain

  datatype Key = Key(operation: string, keyHash: string)
  datatype Request = Request(key: Key, fingerprint: string)
  datatype Row = Pending(fingerprint: string) | Committed(fingerprint: string, response: string)

  /** Where a client stands in `execute`. */
  datatype Client =
    | Ready(req: Request)                         // about to select
    | Vacant(req: Request)                        // saw no row, about to insert
    | Running(req: Request)                       // inserted, callback in progress
    | Produced(req: Request, response: string)    // callback done, about to commit
    | Raised(req: Request)                        // callback raised, about to delete
    | Gone                                        // returned, refused or crashed

  datatype Event =
    | Ran(ran: Key, result: string)
    | Returned(to: Request, response: string, replayed: bool)

  datatype State = State(rows: map<Key, Row>, clients: map<nat, Client>, log: seq<Event>)

  datatype Move =
    | Arrive(client: nat, req: Request)
    | Select(client: nat)
    | Insert(client: nat)
    | Succeed(client: nat, response: string)
    | Fail(client: nat)
    | Commit(client: nat)
    | Delete(client: nat)
    | Crash(client: nat)

  const START := State(map[], map[], [])

  predicate Enabled(s: State, m: Move) {
    match m
    case Arrive(c, _) => c !in s.clients
    case Select(c) => c in s.clients && s.clients[c].Ready?
    case Insert(c) => c in s.clients && s.clients[c].Vacant?
    case Succeed(c, _) => c in s.clients && s.clients[c].Running?
    case Fail(c) => c in s.clients && s.clients[c].Running?
    case Commit(c) => c in s.clients && s.clients[c].Produced?
    case Delete(c) => c in s.clients && s.clients[c].Raised?
    case Crash(c) => c in s.clients
  }

  function At(s: State, c: nat, to: Client): State { s.(clients := s.clients[c := to]) }

  function Step(s: State, m: Move): State
    requires Enabled(s, m)
  {
    match m
    case Arrive(c, req) => At(s, c, Ready(req))
    case Select(c) =>
      var req := s.clients[c].req;
      if req.key !in s.rows then At(s, c, Vacant(req))
      else
        var row := s.rows[req.key];
        if row.fingerprint == req.fingerprint && row.Committed? then
          At(s, c, Gone).(log := s.log + [Returned(req, row.response, true)])
        else At(s, c, Gone)
    case Insert(c) =>
      var req := s.clients[c].req;
      if req.key in s.rows then At(s, c, Gone)
      else At(s, c, Running(req)).(rows := s.rows[req.key := Pending(req.fingerprint)])
    case Succeed(c, response) =>
      var req := s.clients[c].req;
      At(s, c, Produced(req, response)).(log := s.log + [Ran(req.key, response)])
    case Fail(c) => At(s, c, Raised(s.clients[c].req))
    case Commit(c) =>
      var Produced(req, response) := s.clients[c];
      var rows := if req.key in s.rows
                  then s.rows[req.key := Committed(s.rows[req.key].fingerprint, response)] else s.rows;
      At(s, c, Gone).(rows := rows, log := s.log + [Returned(req, response, false)])
    case Delete(c) => At(s, c, Gone).(rows := s.rows - {s.clients[c].req.key})
    case Crash(c) => At(s, c, Gone)
  }

  /** A run: moves taken one after the other, each enabled when it is taken. */
  predicate Allowed(s: State, moves: seq<Move>)
    decreases |moves|
  {
    moves == [] || (Enabled(s, moves[0]) && Allowed(Step(s, moves[0]), moves[1..]))
  }

  function Run(s: State, moves: seq<Move>): State
    requires Allowed(s, moves)
    decreases |moves|
  {
    if moves == [] then s else Run(Step(s, moves[0]), moves[1..])
  }

  // ---- The invariant ----

  /** Client `c` is between its insert and its commit or delete of key `k`. */
  predicate Holds(s: State, c: nat, k: Key) {
    && c in s.clients
    && (s.clients[c].Running? || s.clients[c].Produced? || s.clients[c].Raised?)
    && s.clients[c].req.key == k
  }

  ghost predicate MutualExclusion(s: State) {
    forall c, d, k :: Holds(s, c, k) && Holds(s, d, k) ==> c == d
  }

  ghost predicate HeldIsPending(s: State) {
    forall c, k :: Holds(s, c, k) ==> k in s.rows && s.rows[k] == Pending(s.clients[c].req.fingerprint)
  }

  /** A finished callback is either committed, or still pending with its holder about to commit it
      (or gone). */
  ghost predicate RanIsRecorded(s: State) {
    forall i :: 0 <= i < |s.log| && s.log[i].Ran? ==>
      var k := s.log[i].ran;
      && k in s.rows
      && (s.rows[k].Committed? ==> s.rows[k].response == s.log[i].result)
      && (forall c :: Holds(s, c, k) ==> s.clients[c] == Produced(s.clients[c].req, s.log[i].result))
  }

  ghost predicate RanOnce(s: State) {
    forall i, j :: 0 <= i < j < |s.log| && s.log[i].Ran? && s.log[j].Ran? ==> s.log[i].ran != s.log[j].ran
  }

  ghost predicate ReturnedIsCommitted(s: State) {
    forall i :: 0 <= i < |s.log| && s.log[i].Returned? ==>
      && s.log[i].to.key in s.rows
      && s.rows[s.log[i].to.key] == Committed(s.log[i].to.fingerprint, s.log[i].response)
  }

  ghost predicate FreshOnce(s: State) {
    forall i, j | 0 <= i < j < |s.log| && s.log[i].Returned? && s.log[j].Returned? ::
      s.log[i].to.key == s.log[j].to.key ==> s.log[j].replayed
  }

  ghost predicate HasRun(log: seq<Event>, k: Key, response: string) {
    exists i :: 0 <= i < |log| && log[i] == Ran(k, response)
  }

  ghost predicate ProducedHasRun(s: State) {
    && (forall c :: c in s.clients && s.clients[c].Produced? ==>
          HasRun(s.log, s.clients[c].req.key, s.clients[c].response))
    && (forall k :: k in s.rows && s.rows[k].Committed? ==> HasRun(s.log, k, s.rows[k].response))
  }

  ghost predicate Inv(s: State) {
    && MutualExclusion(s) && HeldIsPending(s) && RanIsRecorded(s) && RanOnce(s)
    && ReturnedIsCommitted(s) && FreshOnce(s) && ProducedHasRun(s)
  }

  lemma HasRunGrows(log: seq<Event>, e: Event, k: Key, response: string)
    requires HasRun(log, k, response)
    ensures HasRun(log + [e], k, response)
  {
    var i :| 0 <= i < |log| && log[i] == Ran(k, response);
    assert (log + [e])[i] == Ran(k, response);
  }

  /** Only an insert creates a holder, and whoever finishes, commits or deletes is one. */
  lemma HoldersAfter(s: State, m: Move)
    requires Enabled(s, m)
    ensures var t := Step(s, m);
      && (forall c, k :: Holds(t, c, k) && c != m.client ==> Holds(s, c, k) && t.clients[c] == s.clients[c])
      && (forall k :: Holds(t, m.client, k) && !m.Insert? ==> Holds(s, m.client, k))
    ensures m.Succeed? || m.Fail? || m.Commit? || m.Delete? ==> Holds(s, m.client, s.clients[m.client].req.key)
  {
  }

  lemma StepKeepsHolders(s: State, m: Move)
    requires Inv(s) && Enabled(s, m)
    ensures var t := Step(s, m); MutualExclusion(t) && HeldIsPending(t)
  {
    HoldersAfter(s, m);
    var t := Step(s, m);
    if m.Insert? && s.clients[m.client].req.key !in s.rows {
      assert forall c, k | Holds(t, c, k) :: c == m.client || Holds(s, c, k);
    }
  }

  lemma StepKeepsRan(s: State, m: Move)
    requires Inv(s) && Enabled(s, m)
    ensures RanIsRecorded(Step(s, m))
  {
    HoldersAfter(s, m);
    var t := Step(s, m);
    forall i | 0 <= i < |s.log| ensures t.log[i] == s.log[i] {}
  }

  lemma StepKeepsRanOnce(s: State, m: Move)
    requires Inv(s) && Enabled(s, m)
    ensures RanOnce(Step(s, m))
  {
    HoldersAfter(s, m);
    var t := Step(s, m);
    forall i | 0 <= i < |s.log| ensures t.log[i] == s.log[i] {}
  }

  lemma StepKeepsReturned(s: State, m: Move)
    requires Inv(s) && Enabled(s, m)
    ensures var t := Step(s, m); ReturnedIsCommitted(t) && FreshOnce(t)
  {
    var t := Step(s, m);
    if m.Succeed? || m.Fail? || m.Commit? || m.Delete? {
      assert Holds(s, m.client, s.clients[m.client].req.key);
    }
    forall i | 0 <= i < |s.log| ensures t.log[i] == s.log[i] {}
  }

  lemma StepKeepsOutcomes(s: State, m: Move)
    requires Inv(s) && Enabled(s, m)
    ensures ProducedHasRun(Step(s, m))
  {
    var t := Step(s, m);
    if |t.log| > |s.log| {
      var e := t.log[|s.log|];
      assert t.log == s.log + [e];
      forall k, response | HasRun(s.log, k, response) ensures HasRun(t.log, k, response) {
        HasRunGrows(s.log, e, k, response);
      }
      if m.Succeed? {
        assert t.log[|s.log|] == Ran(s.clients[m.client].req.key, m.response);
      }
    }
  }

  lemma StepKeepsInv(s: State, m: Move)
    requires Inv(s) && Enabled(s, m)
    ensures Inv(Step(s, m))
  {
    StepKeepsHolders(s, m);
    StepKeepsRan(s, m);
    StepKeepsRanOnce(s, m);
    StepKeepsReturned(s, m);
    StepKeepsOutcomes(s, m);
  }

  lemma {:induction false} RunKeepsInv(s: State, moves: seq<Move>)
    requires Inv(s) && Allowed(s, moves)
    ensures Inv(Run(s, moves))
    decreases |moves|
  {
    if moves != [] {
      StepKeepsInv(s, moves[0]);
      RunKeepsInv(Step(s, moves[0]), moves[1..]);
    }
  }

  // ---- The promises, over every run of any number of clients ----

  /** Exactly-once: per key the callback succeeds at most once; every response handed out for the key
      is that one result, to the authenticated input that reserved it; and all responses after the
      first are marked as replays. At no point do two clients hold one key. */
  lemma {:induction false} ExactlyOnce(moves: seq<Move>)
    requires Allowed(START, moves)
    ensures var s := Run(START, moves);
      && (forall i, j :: 0 <= i < j < |s.log| && s.log[i].Ran? && s.log[j].Ran? ==> s.log[i].ran != s.log[j].ran)
      && (forall i, j | 0 <= i < j < |s.log| && s.log[i].Returned? && s.log[j].Returned? ::
            s.log[i].to.key == s.log[j].to.key ==>
              s.log[j].replayed && s.log[i].response == s.log[j].response && s.log[i].to == s.log[j].to)
      && (forall i :: 0 <= i < |s.log| && s.log[i].Returned? ==> HasRun(s.log, s.log[i].to.key, s.log[i].response))
      && (forall c, d, k :: Holds(s, c, k) && Holds(s, d, k) ==> c == d)
  {
    RunKeepsInv(START, moves);
  }

  /** A committed receipt is never changed or removed. */
  lemma {:induction false} CommittedForever(s: State, moves: seq<Move>, k: Key)
    requires Inv(s) && Allowed(s, moves)
    requires k in s.rows && s.rows[k].Committed?
    ensures k in Run(s, moves).rows && Run(s, moves).rows[k] == s.rows[k]
    decreases |moves|
  {
    if moves != [] {
      var m := moves[0];
      if m.Commit? || m.Delete? {
        assert Holds(s, m.client, s.clients[m.client].req.key);
      }
      StepKeepsInv(s, m);
      CommittedForever(Step(s, m), moves[1..], k);
    }
  }

  /** The key's reservation outlived its client. */
  ghost predicate Orphaned(s: State, k: Key) {
    k in s.rows && s.rows[k].Pending? && forall c :: !Holds(s, c, k)
  }

  predicate Concerns(e: Event, k: Key) {
    match e case Ran(key, _) => key == k case Returned(req, _, _) => req.key == k
  }

  /** Fail-closed after a crash: once the holder of a key is gone without committing, the callback
      never runs again for that key and no client ever gets a response for it. */
  lemma {:induction false} OrphanedKeyIsDead(s: State, moves: seq<Move>, k: Key)
    requires Inv(s) && Allowed(s, moves) && Orphaned(s, k)
    ensures Orphaned(Run(s, moves), k)
    ensures s.log <= Run(s, moves).log
    ensures forall i :: |s.log| <= i < |Run(s, moves).log| ==> !Concerns(Run(s, moves).log[i], k)
    decreases |moves|
  {
    if moves != [] {
      var m := moves[0];
      var t := Step(s, m);
      if m.Succeed? || m.Fail? || m.Commit? || m.Delete? {
        assert Holds(s, m.client, s.clients[m.client].req.key);
      }
      forall c ensures !Holds(t, c, k) {
        assert !Holds(s, c, k);
      }
      assert s.log <= t.log && forall i :: |s.log| <= i < |t.log| ==> !Concerns(t.log[i], k);
      StepKeepsInv(s, m);
      OrphanedKeyIsDead(t, moves[1..], k);
      var u := Run(t, moves[1..]);
      forall i | |s.log| <= i < |u.log| ensures !Concerns(u.log[i], k) {
        if i < |t.log| {
          assert u.log[i] == t.log[i];
        }
      }
    }
  }

  /** And a crash in that window is what orphans a key. */
  lemma {:induction false} CrashOrphans(s: State, c: nat, k: Key)
    requires Inv(s) && Holds(s, c, k)
    ensures Enabled(s, Crash(c)) && Orphaned(Step(s, Crash(c)), k)
  {
    var t := Step(s, Crash(c));
    forall d ensures !Holds(t, d, k) {
      if Holds(t, d, k) {
        assert Holds(s, d, k);
      }
    }
  }

  /** The reservation is never committed and never given back, however the run goes on. */
  ghost predicate Stuck(s: State, k: Key) {
    forall moves :: Allowed(s, moves) ==> k in Run(s, moves).rows && Run(s, moves).rows[k].Pending?
  }

  /** How the holder of a key commits it or gives it back. */
  function Settling(s: State, c: nat): seq<Move>
    requires c in s.clients
  {
    match s.clients[c]
    case Running(_) => [Succeed(c, ""), Commit(c)]
    case Raised(_) => [Delete(c)]
    case _ => [Commit(c)]
  }

  lemma {:induction false} HolderSettles(s: State, c: nat, k: Key)
    requires Inv(s) && Holds(s, c, k)
    ensures Allowed(s, Settling(s, c))
    ensures var rows := Run(s, Settling(s, c)).rows; k !in rows || rows[k].Committed?
  {
    var moves := Settling(s, c);
    assert Enabled(s, moves[0]);
    assert moves[1..] == if s.clients[c].Running? then [Commit(c)] else [];
    if s.clients[c].Running? {
      var t := Step(s, moves[0]);
      assert Enabled(t, Commit(c)) && k in t.rows;
      assert [Commit(c)][1..] == [];
      assert Run(t, [Commit(c)]) == Step(t, Commit(c));
    }
  }

  /** Exactly the orphaned keys are stuck: any other pending key is held by a client that can still settle
      it. */
  lemma {:induction false} StuckExactlyWhenOrphaned(s: State, k: Key)
    requires Inv(s) && k in s.rows && s.rows[k].Pending?
    ensures Stuck(s, k) <==> Orphaned(s, k)
  {
    if Orphaned(s, k) {
      forall moves | Allowed(s, moves) ensures k in Run(s, moves).rows && Run(s, moves).rows[k].Pending? {
        OrphanedKeyIsDead(s, moves, k);
      }
    } else {
      var c :| Holds(s, c, k);
      HolderSettles(s, c, k);
    }
  }

  // ---- One call at a time ----

  datatype Answer = Response(response: string, replayed: bool) | Conflict | InProgress | CallbackRaised

  /** The ledger object of one process, driven by one caller at a time. */
  class SqliteOperationLedger {
    var receipts: map<Key, Row>

    constructor ()
      ensures receipts == map[]
    {
      receipts := map[];
    }

    /** `outcome` is what the callback returns, or None when it raises. */
    method Execute(req: Request, outcome: Option<string>) returns (answer: Answer)
      modifies this
      ensures answer == SerialAnswer(old(receipts), req, outcome)
      ensures receipts == SerialRows(old(receipts), req, outcome)
      // A new key: the callback's result is returned and recorded, or its failure passed on.
      ensures req.key !in old(receipts) ==>
        match outcome
        case Some(r) =>
          answer == Response(r, false) && receipts == old(receipts)[req.key := Committed(req.fingerprint, r)]
        case None => answer == CallbackRaised && receipts == old(receipts)
      // A known one: the recorded result is returned to the same input alone, and nothing changes.
      ensures req.key in old(receipts) ==>
        && receipts == old(receipts)
        && match old(receipts)[req.key]
           case Committed(fingerprint, r) =>
             answer == if fingerprint == req.fingerprint then Response(r, true) else Conflict
           case Pending(fingerprint) => answer == if fingerprint == req.fingerprint then InProgress else Conflict
    {
      if req.key in receipts {
        var row := receipts[req.key];
        if row.fingerprint != req.fingerprint {
          return Conflict;
        }
        if row.Committed? {
          return Response(row.response, true);
        }
        return InProgress;
      }
      receipts := receipts[req.key := Pending(req.fingerprint)];
      match outcome {
        case None =>
          receipts := receipts - {req.key};
          answer := CallbackRaised;
        case Some(response) =>
          receipts := receipts[req.key := Committed(receipts[req.key].fingerprint, response)];
          answer := Response(response, false);
      }
    }
  }

  function SerialAnswer(rows: map<Key, Row>, req: Request, outcome: Option<string>): Answer {
    if req.key in rows then
      if rows[req.key].fingerprint != req.fingerprint then Conflict
      else if rows[req.key].Committed? then Response(rows[req.key].response, true)
      else InProgress
    else if outcome.Some? then Response(outcome.value, false)
    else CallbackRaised
  }

  function SerialRows(rows: map<Key, Row>, req: Request, outcome: Option<string>): map<Key, Row> {
    if req.key !in rows && outcome.Some? then rows[req.key := Committed(req.fingerprint, outcome.value)] else rows
  }

  /** The moves of one uninterrupted call. */
  function Uninterrupted(s: State, c: nat, req: Request, outcome: Option<string>): seq<Move> {
    [Arrive(c, req)] + ([Select(c)] + (
      if req.key in s.rows then []
      else [Insert(c)] + if outcome.Some? then [Succeed(c, outcome.value)] + ([Commit(c)] + [])
                         else [Fail(c)] + ([Delete(c)] + [])))
  }

  lemma RunFirst(s: State, m: Move, rest: seq<Move>)
    requires Enabled(s, m) && Allowed(Step(s, m), rest)
    ensures Allowed(s, [m] + rest) && Run(s, [m] + rest) == Run(Step(s, m), rest)
  {
    assert ([m] + rest)[1..] == rest;
  }

  /** What an uninterrupted call adds to the log. */
  function Told(rows: map<Key, Row>, req: Request, outcome: Option<string>): seq<Event> {
    match SerialAnswer(rows, req, outcome)
    case Response(r, false) => [Ran(req.key, r), Returned(req, r, false)]
    case Response(r, true) => [Returned(req, r, true)]
    case _ => []
  }

  /** The moves of a call that found no row. */
  lemma {:induction false} VacantRun(s: State, c: nat, req: Request, outcome: Option<string>, rest: seq<Move>)
    requires c in s.clients && s.clients[c] == Vacant(req) && req.key !in s.rows
    requires rest == [Insert(c)] + if outcome.Some? then [Succeed(c, outcome.value)] + ([Commit(c)] + [])
                                   else [Fail(c)] + ([Delete(c)] + [])
    ensures Allowed(s, rest)
    ensures Run(s, rest)
         == State(SerialRows(s.rows, req, outcome), s.clients[c := Gone], s.log + Told(s.rows, req, outcome))
  {
    var s3 := Step(s, Insert(c));
    var run, end := if outcome.Some? then Succeed(c, outcome.value) else Fail(c),
                    if outcome.Some? then Commit(c) else Delete(c);
    RunFirst(Step(s3, run), end, []);
    RunFirst(s3, run, [end] + []);
    RunFirst(s, Insert(c), [run] + ([end] + []));
    assert Run(s, rest).rows == SerialRows(s.rows, req, outcome);
  }

  lemma {:induction false} UninterruptedRun(s: State, c: nat, req: Request, outcome: Option<string>)
    requires c !in s.clients
    ensures var moves := Uninterrupted(s, c, req, outcome);
      && Allowed(s, moves)
      && Run(s, moves)
         == State(SerialRows(s.rows, req, outcome), s.clients[c := Gone], s.log + Told(s.rows, req, outcome))
  {
    var s1 := Step(s, Arrive(c, req));
    var s2 := Step(s1, Select(c));
    var rest := Uninterrupted(s, c, req, outcome)[2..];
    if req.key !in s.rows {
      VacantRun(s2, c, req, outcome, rest);
    } else {
      assert rest == [];
    }
    RunFirst(s1, Select(c), rest);
    RunFirst(s, Arrive(c, req), [Select(c)] + rest);
    assert Uninterrupted(s, c, req, outcome) == [Arrive(c, req)] + ([Select(c)] + rest);
  }

  /** A call that nobody interrupts is a run of the protocol with exactly the serial effect. It answers with
      a response exactly when the run hands that response out, as a replay or not; it raises exactly when
      the run fails and deletes; and it refuses exactly on a row of another input, or a pending row of the
      same one. */
  lemma {:induction false} SerialCallIsARun(s: State, c: nat, req: Request, outcome: Option<string>)
    requires c !in s.clients
    ensures var moves := Uninterrupted(s, c, req, outcome);
      && Allowed(s, moves)
      && var t, answer := Run(s, moves), SerialAnswer(s.rows, req, outcome);
        && t.rows == SerialRows(s.rows, req, outcome) && t.clients == s.clients[c := Gone] && s.log <= t.log
        && (forall r, replayed ::
              answer == Response(r, replayed) <==> Returned(req, r, replayed) in t.log[|s.log|..])
        && (answer == CallbackRaised <==> Fail(c) in moves && Delete(c) in moves)
        && (answer == Conflict <==> req.key in s.rows && s.rows[req.key].fingerprint != req.fingerprint)
        && (answer == InProgress <==> req.key in s.rows && s.rows[req.key] == Pending(req.fingerprint))
  {
    UninterruptedRun(s, c, req, outcome);
    hide Run, Allowed;
    var told := Told(s.rows, req, outcome);
    assert (s.log + told)[|s.log|..] == told;
  }

  /** A successful call replays: the same request later gets the same response, whatever the callback
      would now do, and the table does not change. A different fingerprint is refused. */
  lemma SerialReplay(rows: map<Key, Row>, req: Request, outcome: Option<string>, other: Request, again: Option<string>)
    requires SerialAnswer(rows, req, outcome).Response? && other.key == req.key
    ensures var rows' := SerialRows(rows, req, outcome);
      && SerialRows(rows', other, again) == rows'
      && SerialAnswer(rows', other, again)
         == if other.fingerprint == req.fingerprint then Response(SerialAnswer(rows, req, outcome).response, true)
            else Conflict
  {
  }
}
