/** The forced tool call of agent.py: retries, one repair, a total time budget and a circuit breaker.

    The k-th reading of the monotonic clock and the reply to the k-th post are arbitrary functions of
    k; the clock never runs backwards. Request bodies and response fields are not modelled. */
module ToolCalls {

  datatype Settings = Settings(maxRetries: int, maxTotalSeconds: real, threshold: int, cooldown: real)

  /** What a post leads to: a timeout, status 429 or a server error (retried); any other error, which
      escapes uncaught; a well-formed reply whose tool call is invalid; or a valid tool call. */
  datatype Reply = Retryable | Broken | InvalidCall | ValidCall(arguments: string)

  datatype Outcome =
    | Called(arguments: string, retries: nat, repairs: nat)
    | CircuitOpen
    | BudgetExceeded
    | FailedClosed(attempts: nat)
    | NoResponse
    | Escaped
    | InvalidOutput

  datatype Round = Answered(reply: Reply) | Stopped(outcome: Outcome)

  /** The history of one provider object: the clock reading each post was cleared at, and the reading
      from which each opening of the circuit counts. */
  datatype Event = Posted(tick: nat) | Opened(tick: nat)

  function RetriesIn(reply: nat -> Reply, from: nat, till: nat): nat
    requires from <= till
  {
    if from == till then 0 else RetriesIn(reply, from, till - 1) + (if reply(till - 1).Retryable? then 1 else 0)
  }

  function InvalidIn(reply: nat -> Reply, from: nat, till: nat): nat
    requires from <= till
  {
    if from == till then 0 else InvalidIn(reply, from, till - 1) + (if reply(till - 1).InvalidCall? then 1 else 0)
  }

  lemma {:induction false} CountsAdd(reply: nat -> Reply, from: nat, mid: nat, till: nat)
    requires from <= mid <= till
    ensures RetriesIn(reply, from, till) == RetriesIn(reply, from, mid) + RetriesIn(reply, mid, till)
    ensures InvalidIn(reply, from, till) == InvalidIn(reply, from, mid) + InvalidIn(reply, mid, till)
    decreases till
  {
    if mid < till {
      CountsAdd(reply, from, mid, till - 1);
    }
  }

  /** What one round of attempts posted: `sent` replies that were retried, and the one that ended it. */
  ghost predicate RoundAccounts(max: int, reply: nat -> Reply, from: nat, till: nat, round: Round, sent: nat) {
    && from <= till
    && RetriesIn(reply, from, till) == (if round == Stopped(FailedClosed(sent + 1)) then sent + 1 else sent)
    && InvalidIn(reply, from, till) == (if round == Answered(InvalidCall) then 1 else 0)
    && till - from <= (if max < 0 then 0 else max + 1)
    && (max < 0 <==> round == Stopped(NoResponse))
    && (round.Answered? ==>
          && till - from == sent + 1 && round.reply == reply(till - 1)
          && (round.reply.InvalidCall? || round.reply.ValidCall?))
    && (round.Stopped? ==>
          match round.outcome
          case NoResponse => true
          case BudgetExceeded => true
          case Escaped => till > from && reply(till - 1).Broken?
          case FailedClosed(attempts) => attempts == sent + 1 == max + 1 == till - from && AllRetried(reply, from, till)
          case _ => false)
  }

  ghost predicate AllRetried(reply: nat -> Reply, from: nat, till: nat) {
    forall k: nat :: from <= k < till ==> reply(k).Retryable?
  }

  /** Inside a round: `sent` posts so far, every one of them to be retried. */
  ghost predicate Retried(max: int, reply: nat -> Reply, from: nat, till: nat, sent: nat) {
    && till == from + sent && (if max < 0 then sent == 0 else sent <= max)
    && RetriesIn(reply, from, till) == sent && InvalidIn(reply, from, till) == 0 && AllRetried(reply, from, till)
  }

  lemma RetriedNone(max: int, reply: nat -> Reply, from: nat)
    ensures Retried(max, reply, from, from, 0)
  {
  }

  lemma RoundEnds(max: int, reply: nat -> Reply, from: nat, till: nat, sent: nat)
    requires Retried(max, reply, from, till, sent)
    ensures max < 0 || sent <= max
    ensures RoundAccounts(max, reply, from, till, Stopped(if max < 0 then NoResponse else BudgetExceeded), sent)
    ensures max >= 0 ==>
      match reply(till)
      case Broken => RoundAccounts(max, reply, from, till + 1, Stopped(Escaped), sent)
      case Retryable =>
        if sent == max then RoundAccounts(max, reply, from, till + 1, Stopped(FailedClosed(sent + 1)), sent)
        else Retried(max, reply, from, till + 1, sent + 1)
      case r => RoundAccounts(max, reply, from, till + 1, Answered(r), sent)
  {
  }

  /** What a whole call posted. */
  ghost predicate CallAccounts(max: int, reply: nat -> Reply, from: nat, till: nat, outcome: Outcome) {
    && from <= till
    // Bounded whatever the replies.
    && till - from <= (if max < 0 then 0 else 2 * (max + 1))
    // At most one repair: the second invalid reply ends the call.
    && InvalidIn(reply, from, till) <= 2
    && (InvalidIn(reply, from, till) == 2 <==> outcome.InvalidOutput?)
    && match outcome
       case Called(arguments, retries, repairs) =>
         && till - from == 1 + retries + repairs
         && reply(till - 1) == ValidCall(arguments)
         && retries == RetriesIn(reply, from, till) && repairs == InvalidIn(reply, from, till)
       case CircuitOpen => till == from
       case BudgetExceeded => max >= 0
       case FailedClosed(attempts) => attempts == max + 1 <= till - from && AllRetried(reply, till - attempts, till)
       case NoResponse => max < 0
       case Escaped => till > from && reply(till - 1).Broken?
       case InvalidOutput => till > from && reply(till - 1).InvalidCall?
  }

  /** What the call has posted before a round: nothing, or a first round that ended in an invalid reply. */
  ghost predicate SoFar(max: int, reply: nat -> Reply, from: nat, mid: nat, retries: nat, repairs: nat) {
    && from <= mid && mid - from == retries + repairs && repairs <= 1
    && retries == RetriesIn(reply, from, mid) && repairs == InvalidIn(reply, from, mid)
    && if repairs == 0 then mid == from else 0 <= max && mid - from <= max + 1
  }

  lemma CallBegins(max: int, reply: nat -> Reply, from: nat)
    ensures SoFar(max, reply, from, from, 0, 0) && CallAccounts(max, reply, from, from, CircuitOpen)
  {
  }

  lemma {:induction false} RoundsAddUp(max: int, reply: nat -> Reply, from: nat, mid: nat, till: nat,
    retries: nat, repairs: nat, round: Round, sent: nat)
    requires SoFar(max, reply, from, mid, retries, repairs) && RoundAccounts(max, reply, mid, till, round, sent)
    ensures match round
      case Stopped(outcome) => CallAccounts(max, reply, from, till, outcome)
      case Answered(InvalidCall) =>
        if repairs == 1 then CallAccounts(max, reply, from, till, InvalidOutput)
        else SoFar(max, reply, from, till, retries + sent, 1)
      case Answered(ValidCall(arguments)) =>
        CallAccounts(max, reply, from, till, Called(arguments, retries + sent, repairs))
      case _ => false
    ensures round.Stopped? ==>
      match round.outcome
      case BudgetExceeded => true
      case FailedClosed(_) => true
      case NoResponse => true
      case Escaped => true
      case _ => false
  {
    CountsAdd(reply, from, mid, till);
  }

  ghost predicate Monotonic(clock: nat -> real) {
    forall i: nat, j: nat :: i <= j ==> clock(i) <= clock(j)
  }

  /** No post follows an opening of the circuit before the cooldown has passed. */
  ghost predicate CooldownRespected(clock: nat -> real, cooldown: real, log: seq<Event>) {
    forall i, j :: 0 <= i < j < |log| && log[i].Opened? && log[j].Posted? ==>
      clock(log[i].tick) + cooldown <= clock(log[j].tick)
  }

  /** The history is consistent with the clock and with the time the circuit is closed until. */
  ghost predicate Consistent(clock: nat -> real, cooldown: real, log: seq<Event>, ticks: nat, openUntil: real) {
    && Monotonic(clock)
    && (forall i :: 0 <= i < |log| ==> log[i].tick < ticks)
    && (forall i :: 0 <= i < |log| && log[i].Opened? ==> clock(log[i].tick) + cooldown <= openUntil)
    && CooldownRespected(clock, cooldown, log)
  }

  /** From entry `n` on, the history shows posts alone, each cleared at the reading that follows the last
      one used, and within the budget from the reading `from`; or so up to one opening of the circuit. */
  ghost predicate PostedInTime(clock: nat -> real, budget: real, log: seq<Event>, n: nat, from: nat, posted: nat) {
    && n + posted <= |log|
    && forall i: nat :: n <= i < n + posted ==>
         log[i] == Posted(from + 1 + i - n) && clock(from + 1 + i - n) - clock(from) < budget
  }

  /** What the readings and the history of one call show, from reading `from` and entry `n` on: every post
      was made within the budget; and the call ran out of it exactly when the reading after those of its
      posts was no longer within it. */
  ghost predicate Timed(clock: nat -> real, budget: real, log: seq<Event>, n: nat, from: nat, ticks: nat,
    posted: nat, exceeded: bool, tripped: bool)
  {
    && PostedInTime(clock, budget, log, n, from, posted)
    && |log| == n + posted + (if tripped then 1 else 0)
    && ticks == from + 1 + posted + (if exceeded then 1 else 0) + (if tripped then 1 else 0)
    && (tripped ==> log[n + posted] == Opened(ticks - 1))
    && (exceeded ==> clock(from + 1 + posted) - clock(from) >= budget)
  }

  lemma LaterReadings(clock: nat -> real, cooldown: real, log: seq<Event>, ticks: nat, openUntil: real, from: nat)
    requires Consistent(clock, cooldown, log, ticks, openUntil)
    ensures forall i: nat :: i >= from ==> clock(from) <= clock(i)
  {
  }

  lemma TimedFirst(clock: nat -> real, budget: real, log: seq<Event>, from: nat)
    ensures Timed(clock, budget, log, |log|, from, from + 1, 0, false, false)
  {
  }

  lemma TimedPosts(clock: nat -> real, budget: real, log: seq<Event>, n: nat, from: nat, ticks: nat, posted: nat,
    exceeded: bool, tripped: bool)
    requires Timed(clock, budget, log, n, from, ticks, posted, exceeded, tripped)
    ensures forall i :: n <= i < |log| && log[i].Posted? ==>
      from < log[i].tick < ticks && clock(log[i].tick) - clock(from) < budget
    ensures exceeded ==> from + 1 + posted < ticks && clock(from + 1 + posted) - clock(from) >= budget
  {
  }

  lemma ReadingPosts(clock: nat -> real, budget: real, log: seq<Event>, n: nat, from: nat, ticks: nat, posted: nat)
    requires Timed(clock, budget, log, n, from, ticks, posted, false, false) && clock(ticks) - clock(from) < budget
    ensures Timed(clock, budget, log + [Posted(ticks)], n, from, ticks + 1, posted + 1, false, false)
  {
  }

  lemma ReadingExceeds(clock: nat -> real, budget: real, log: seq<Event>, n: nat, from: nat, ticks: nat, posted: nat)
    requires Timed(clock, budget, log, n, from, ticks, posted, false, false) && clock(ticks) - clock(from) >= budget
    ensures Timed(clock, budget, log, n, from, ticks + 1, posted, true, false)
  {
  }

  lemma FailureTimed(clock: nat -> real, budget: real, log: seq<Event>, n: nat, from: nat, ticks: nat, posted: nat,
    exceeded: bool)
    requires Timed(clock, budget, log, n, from, ticks, posted, exceeded, false)
    ensures Timed(clock, budget, log + [Opened(ticks)], n, from, ticks + 1, posted, exceeded, true)
  {
  }

  /** How many posts a history shows. */
  function PostsIn(log: seq<Event>): nat {
    if log == [] then 0 else PostsIn(log[..|log| - 1]) + (if log[|log| - 1].Posted? then 1 else 0)
  }

  lemma OneMoreEvent(log: seq<Event>, e: Event)
    ensures PostsIn(log + [e]) == PostsIn(log) + (if e.Posted? then 1 else 0)
  {
    assert (log + [e])[..|log|] == log;
  }

  class TokenFactoryProvider {
    const settings: Settings
    const clock: nat -> real
    const reply: nat -> Reply
    var ticks: nat
    var posts: nat
    var consecutiveFailures: nat
    var circuitOpenUntil: real
    ghost var log: seq<Event>

    /** The history is consistent, and shows every post that was made. */
    ghost predicate Valid()
      reads this
    {
      Consistent(clock, settings.cooldown, log, ticks, circuitOpenUntil) && posts == PostsIn(log)
    }

    constructor (settings: Settings, clock: nat -> real, reply: nat -> Reply)
      requires Monotonic(clock)
      ensures Valid() && log == [] && posts == 0 && consecutiveFailures == 0 && circuitOpenUntil == 0.0
      ensures this.settings == settings && this.clock == clock && this.reply == reply
    {
      this.settings, this.clock, this.reply := settings, clock, reply;
      ticks, posts, consecutiveFailures, circuitOpenUntil := 0, 0, 0, 0.0;
      log := [];
    }

    method Now() returns (now: real)
      requires Valid()
      modifies this`ticks
      ensures Valid()
      ensures now == clock(old(ticks)) && ticks == old(ticks) + 1
    {
      now := clock(ticks);
      ticks := ticks + 1;
    }

    method Post() returns (r: Reply)
      requires Valid() && ticks > 0 && circuitOpenUntil <= clock(ticks - 1)
      modifies this`posts, this`log
      ensures Valid() && r == reply(old(posts)) && posts == old(posts) + 1
      ensures log == old(log) + [Posted(ticks - 1)]
    {
      OneMoreEvent(log, Posted(ticks - 1));
      r := reply(posts);
      posts := posts + 1;
      log := log + [Posted(ticks - 1)];
    }

    /** One more failure; the threshold-th in a row, and any further one, opens the circuit. */
    method RegisterFailure()
      requires Valid()
      modifies this`ticks, this`consecutiveFailures, this`circuitOpenUntil, this`log
      ensures Valid() && consecutiveFailures == old(consecutiveFailures) + 1
      ensures if consecutiveFailures >= settings.threshold
        then log == old(log) + [Opened(old(ticks))] && circuitOpenUntil == clock(old(ticks)) + settings.cooldown
          && ticks == old(ticks) + 1
        else log == old(log) && circuitOpenUntil == old(circuitOpenUntil) && ticks == old(ticks)
    {
      consecutiveFailures := consecutiveFailures + 1;
      if consecutiveFailures >= settings.threshold {
        ghost var entry := Opened(ticks);
        var now := Now();
        circuitOpenUntil := now + settings.cooldown;
        OneMoreEvent(log, entry);
        log := log + [entry];
      }
    }

    /** The loop of attempts inside one round: stops at the first reply that is not retried. */
    method SendWithRetries(started: real, ghost first: nat, ghost from: nat, ghost n: nat)
      returns (round: Round, sent: nat)
      requires Valid() && circuitOpenUntil <= started == clock(from) && from < ticks
      requires InTime(n, first, from, false, false) && forall i: nat :: i >= ticks ==> started <= clock(i)
      modifies this
      ensures Valid() && old(log) <= log && old(ticks) <= ticks
      ensures var failed := round.Stopped? && (round.outcome.BudgetExceeded? || round.outcome.FailedClosed?);
        InTime(n, first, from, round == Stopped(BudgetExceeded), failed && consecutiveFailures >= settings.threshold)
      ensures RoundAccounts(settings.maxRetries, reply, old(posts), posts, round, sent)
      ensures if round.Stopped? && (round.outcome.BudgetExceeded? || round.outcome.FailedClosed?)
        then Failed(old(consecutiveFailures), old(circuitOpenUntil))
        else Unchanged(old(consecutiveFailures), old(circuitOpenUntil))
    {
      hide Consistent, Retried, RoundAccounts, PostsIn, RetriesIn, InvalidIn;
      hide Timed;
      sent := 0;
      RetriedNone(settings.maxRetries, reply, posts);
      while sent <= settings.maxRetries
        invariant Valid() && old(log) <= log && old(ticks) <= ticks
        invariant Unchanged(old(consecutiveFailures), old(circuitOpenUntil)) && InTime(n, first, from, false, false)
        invariant Retried(settings.maxRetries, reply, old(posts), posts, sent)
        decreases settings.maxRetries - sent
      {
        RoundEnds(settings.maxRetries, reply, old(posts), posts, sent);
        label before:
        var now := Now();
        if now - started >= settings.maxTotalSeconds {
          ReadingExceeds(clock, settings.maxTotalSeconds, log, n, from, old@before(ticks), posts - first);
          label exceeded:
          RegisterFailure();
          FailureTimed(clock, settings.maxTotalSeconds, old@exceeded(log), n, from, old@exceeded(ticks), posts - first,
            true);
          return Stopped(BudgetExceeded), sent;
        }
        ReadingPosts(clock, settings.maxTotalSeconds, log, n, from, old@before(ticks), posts - first);
        var response := Post();
        if response.Broken? {
          return Stopped(Escaped), sent;
        }
        if !response.Retryable? {
          return Answered(response), sent;
        }
        if sent >= settings.maxRetries {
          label failed:
          RegisterFailure();
          FailureTimed(clock, settings.maxTotalSeconds, old@failed(log), n, from, old@failed(ticks), posts - first,
            false);
          return Stopped(FailedClosed(sent + 1)), sent;
        }
        sent := sent + 1;
      }
      RoundEnds(settings.maxRetries, reply, old(posts), posts, sent);
      return Stopped(NoResponse), sent;
    }

    /** What this call's readings and posts show so far; it began with post `first`, reading `from` and
        entry `n`. */
    ghost predicate InTime(n: nat, first: nat, from: nat, exceeded: bool, tripped: bool)
      reads this
    {
      first <= posts
      && Timed(clock, settings.maxTotalSeconds, log, n, from, ticks, posts - first, exceeded, tripped)
    }

    ghost predicate Unchanged(failures: nat, openUntil: real)
      reads this
    {
      consecutiveFailures == failures && circuitOpenUntil == openUntil
    }

    /** One more failure on top of `failures`, with the circuit opened if that reaches the threshold. */
    ghost predicate Failed(failures: nat, openUntil: real)
      reads this
    {
      && consecutiveFailures == failures + 1
      && (consecutiveFailures < settings.threshold ==> circuitOpenUntil == openUntil)
      && (consecutiveFailures >= settings.threshold ==>
           && ticks > 0 && |log| > 0 && log[|log| - 1] == Opened(ticks - 1)
           && circuitOpenUntil == clock(ticks - 1) + settings.cooldown)
    }

    /** One forced tool call. An open circuit posts nothing; the breaker counts exhausted retries and
        exceeded budgets, and only a success resets the count. */
    method CallTool() returns (outcome: Outcome)
      requires Valid()
      modifies this
      ensures Valid() && old(log) <= log && old(ticks) < ticks
      ensures CallAccounts(settings.maxRetries, reply, old(posts), posts, outcome)
      ensures forall i :: |old(log)| <= i < |log| && log[i].Posted? ==>
        old(ticks) < log[i].tick < ticks && clock(log[i].tick) - clock(old(ticks)) < settings.maxTotalSeconds
      ensures outcome.BudgetExceeded? ==>
        var reading := old(ticks) + 1 + (posts - old(posts));
        reading < ticks && clock(reading) - clock(old(ticks)) >= settings.maxTotalSeconds
      ensures InTime(|old(log)|, old(posts), old(ticks), outcome.BudgetExceeded?,
        (outcome.FailedClosed? || outcome.BudgetExceeded?) && consecutiveFailures >= settings.threshold)
      ensures outcome.CircuitOpen? <==> clock(old(ticks)) < old(circuitOpenUntil)
      ensures if outcome.FailedClosed? || outcome.BudgetExceeded?
        then Failed(old(consecutiveFailures), old(circuitOpenUntil))
        else Unchanged(if outcome.Called? then 0 else old(consecutiveFailures), old(circuitOpenUntil))
    {
      hide Consistent, PostsIn, Timed, SoFar, RoundAccounts, CallAccounts;
      LaterReadings(clock, settings.cooldown, log, ticks, circuitOpenUntil, ticks);
      CallBegins(settings.maxRetries, reply, posts);
      TimedFirst(clock, settings.maxTotalSeconds, log, ticks);
      var started := Now();
      if started < circuitOpenUntil {
        return CircuitOpen;
      }
      var retries, repairs := 0, 0;
      while repairs <= 1
        invariant Valid() && old(log) <= log && old(ticks) < ticks
        invariant Unchanged(old(consecutiveFailures), old(circuitOpenUntil))
        invariant InTime(|old(log)|, old(posts), old(ticks), false, false) && repairs <= 1
        invariant SoFar(settings.maxRetries, reply, old(posts), posts, retries, repairs)
        decreases 2 - repairs
      {
        ghost var mid := posts;
        var round, sent := SendWithRetries(started, old(posts), old(ticks), |old(log)|);
        RoundsAddUp(settings.maxRetries, reply, old(posts), mid, posts, retries, repairs, round, sent);
        retries := retries + sent;
        match round {
          case Stopped(o) =>
            TimedPosts(clock, settings.maxTotalSeconds, log, |old(log)|, old(ticks), ticks, posts - old(posts),
              o.BudgetExceeded?, (o.FailedClosed? || o.BudgetExceeded?) && consecutiveFailures >= settings.threshold);
            return o;
          case Answered(response) =>
            TimedPosts(clock, settings.maxTotalSeconds, log, |old(log)|, old(ticks), ticks, posts - old(posts),
              false, false);
            if response.ValidCall? {
              consecutiveFailures := 0;
              return Called(response.arguments, retries, repairs);
            }
            if repairs >= 1 {
              return InvalidOutput;
            }
            repairs := repairs + 1;
        }
      }
      assert false;
    }
  }
}
