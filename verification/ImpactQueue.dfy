/** The load model of impact.py: a first-come queue in front of a fleet of AGVs.

    Each arriving pallet goes to the AGV that becomes free first. Arrival gaps and service times
    are drawn at random by the program; here they are arbitrary input sequences, and times are
    exact reals. */
module ImpactQueue {

  /** One served pallet: the AGV that took it, and when it started and finished. */
  datatype Job = Job(agv: nat, start: real, finish: real)

  function Max(a: real, b: real): real { if a >= b then a else b }

  /** The first index holding the least free time, as `min(range(n), key=...)` returns it. */
  function Earliest(free: seq<real>): (k: nat)
    requires |free| > 0
    ensures k < |free|
  {
    if |free| == 1 then 0
    else
      var k := Earliest(free[..|free| - 1]);
      if free[|free| - 1] < free[k] then |free| - 1 else k
  }

  lemma {:induction false} EarliestIsFirstLeast(free: seq<real>)
    requires |free| > 0
    ensures forall i :: 0 <= i < |free| ==> free[Earliest(free)] <= free[i]
    ensures forall i :: 0 <= i < Earliest(free) ==> free[Earliest(free)] < free[i]
  {
    if |free| > 1 {
      var rest := free[..|free| - 1];
      EarliestIsFirstLeast(rest);
      assert forall i :: 0 <= i < |rest| ==> rest[i] == free[i];
    }
  }

  /** Serving one pallet from fleet state `free`. */
  function Serve(free: seq<real>, arrival: real, service: real): Job
    requires |free| > 0
  {
    var k := Earliest(free);
    var start := Max(arrival, free[k]);
    Job(k, start, start + service)
  }

  /** The fleet state after the first `n` pallets. */
  function FreeAfter(fleet: nat, arrivals: seq<real>, services: seq<real>, n: nat): (free: seq<real>)
    requires fleet > 0 && n <= |arrivals| && |services| == |arrivals|
    ensures |free| == fleet
  {
    if n == 0 then seq(fleet, _ => 0.0)
    else
      var free := FreeAfter(fleet, arrivals, services, n - 1);
      var job := Serve(free, arrivals[n - 1], services[n - 1]);
      free[job.agv := job.finish]
  }

  /** The job of pallet `j`. */
  function JobAt(fleet: nat, arrivals: seq<real>, services: seq<real>, j: nat): Job
    requires fleet > 0 && j < |arrivals| && |services| == |arrivals|
  {
    Serve(FreeAfter(fleet, arrivals, services, j), arrivals[j], services[j])
  }

  ghost predicate Ordered(arrivals: seq<real>) {
    && (forall i :: 0 <= i < |arrivals| ==> arrivals[i] >= 0.0)
    && (forall i, j :: 0 <= i <= j < |arrivals| ==> arrivals[i] <= arrivals[j])
  }

  ghost predicate NonNegative(services: seq<real>) {
    forall i :: 0 <= i < |services| ==> services[i] >= 0.0
  }

  /** The clock after `n` scaled gaps. */
  function Cursor(intervals: seq<real>, scale: real, n: nat): real
    requires n <= |intervals|
  {
    if n == 0 then 0.0 else Cursor(intervals, scale, n - 1) + intervals[n - 1] * scale
  }

  /** The time from the arrival before, or from the start of the day, to arrival `i`. */
  function Gap(arrivals: seq<real>, i: nat): real
    requires i < |arrivals|
  {
    if i == 0 then arrivals[0] else arrivals[i] - arrivals[i - 1]
  }

  /** The arrival loop: running sums of scaled gaps, so arrivals come out in order. */
  method Arrivals(intervals: seq<real>, scale: real) returns (arrivals: seq<real>)
    requires NonNegative(intervals) && scale >= 0.0
    ensures |arrivals| == |intervals| && Ordered(arrivals)
    ensures forall i :: 0 <= i < |arrivals| ==> arrivals[i] == Cursor(intervals, scale, i + 1)
    ensures forall i :: 0 <= i < |arrivals| ==> Gap(arrivals, i) == intervals[i] * scale
  {
    arrivals := [];
    var cursor := 0.0;
    for k := 0 to |intervals|
      invariant |arrivals| == k && 0.0 <= cursor == Cursor(intervals, scale, k)
      invariant forall i :: 0 <= i < k ==> 0.0 <= arrivals[i] <= cursor
      invariant forall i :: 0 <= i < k ==> arrivals[i] == Cursor(intervals, scale, i + 1)
      invariant Ordered(arrivals)
    {
      var gap := intervals[k] * scale;
      assert gap >= 0.0;
      cursor := cursor + gap;
      arrivals := arrivals + [cursor];
    }
    CursorGaps(intervals, scale, arrivals);
  }

  lemma CursorGaps(intervals: seq<real>, scale: real, arrivals: seq<real>)
    requires |arrivals| == |intervals|
    requires forall i :: 0 <= i < |arrivals| ==> arrivals[i] == Cursor(intervals, scale, i + 1)
    ensures forall i :: 0 <= i < |arrivals| ==> Gap(arrivals, i) == intervals[i] * scale
  {
    forall i | 0 <= i < |arrivals| ensures Gap(arrivals, i) == intervals[i] * scale {
      assert Cursor(intervals, scale, i + 1) == Cursor(intervals, scale, i) + intervals[i] * scale;
    }
  }

  /** The whole day's jobs, in arrival order. */
  function Day(fleet: nat, arrivals: seq<real>, services: seq<real>): seq<Job>
    requires fleet > 0 && |services| == |arrivals|
  {
    seq(|arrivals|, j requires 0 <= j < |arrivals| => JobAt(fleet, arrivals, services, j))
  }

  /** How many pallets finish after closing time. */
  function Backlog(jobs: seq<Job>, operating: real): nat {
    if jobs == [] then 0
    else Backlog(jobs[..|jobs| - 1], operating) + (if jobs[|jobs| - 1].finish > operating then 1 else 0)
  }

  /** How long each pallet waited for its AGV. */
  function Waits(jobs: seq<Job>, arrivals: seq<real>): (waits: seq<real>)
    requires |jobs| <= |arrivals|
    ensures |waits| == |jobs|
  {
    if jobs == [] then []
    else
      var n := |jobs| - 1;
      Waits(jobs[..n], arrivals) + [jobs[n].start - arrivals[n]]
  }

  /** What the loop has computed after `n` pallets. */
  ghost predicate Served(fleet: nat, arrivals: seq<real>, services: seq<real>, operating: real, n: nat,
    free: seq<real>, jobs: seq<Job>, waits: seq<real>, backlog: nat)
    requires fleet > 0 && |services| == |arrivals| && n <= |arrivals|
  {
    && free == FreeAfter(fleet, arrivals, services, n)
    && jobs == Day(fleet, arrivals, services)[..n]
    && waits == Waits(jobs, arrivals)
    && backlog == Backlog(jobs, operating)
  }

  lemma ServedNone(fleet: nat, arrivals: seq<real>, services: seq<real>, operating: real, free: seq<real>)
    requires fleet > 0 && |services| == |arrivals| && free == seq(fleet, _ => 0.0)
    ensures Served(fleet, arrivals, services, operating, 0, free, [], [], 0)
  {
  }

  lemma ServedAll(fleet: nat, arrivals: seq<real>, services: seq<real>, operating: real,
    free: seq<real>, jobs: seq<Job>, waits: seq<real>, backlog: nat)
    requires fleet > 0 && |services| == |arrivals|
    requires Served(fleet, arrivals, services, operating, |arrivals|, free, jobs, waits, backlog)
    ensures jobs == Day(fleet, arrivals, services) && waits == Waits(jobs, arrivals) &&
      backlog == Backlog(jobs, operating)
  {
  }

  lemma ServeNext(fleet: nat, arrivals: seq<real>, services: seq<real>, operating: real, n: nat,
    free: seq<real>, jobs: seq<Job>, waits: seq<real>, backlog: nat)
    requires fleet > 0 && |services| == |arrivals| && n < |arrivals|
    requires Served(fleet, arrivals, services, operating, n, free, jobs, waits, backlog)
    ensures var job := Serve(free, arrivals[n], services[n]);
      Served(fleet, arrivals, services, operating, n + 1, free[job.agv := job.finish], jobs + [job],
        waits + [job.start - arrivals[n]], backlog + (if job.finish > operating then 1 else 0))
  {
    var job := Serve(free, arrivals[n], services[n]);
    assert (jobs + [job])[..n] == jobs;
  }

  // ---- The queue in its own terms ----

  /** When AGV `k` is free for good after these jobs: the finish of its last one, or the start of the day. */
  function FreeFrom(jobs: seq<Job>, k: nat): real {
    if jobs == [] then 0.0
    else if jobs[|jobs| - 1].agv == k then jobs[|jobs| - 1].finish
    else FreeFrom(jobs[..|jobs| - 1], k)
  }

  /** The last of these jobs goes to the first of the AGVs that the earlier ones leave free earliest, starts
      once the pallet and that AGV are there, and takes the service time. */
  ghost predicate FirstCome(fleet: nat, arrival: real, service: real, earlier: seq<Job>, job: Job) {
    && job.agv < fleet
    && (forall k :: 0 <= k < fleet ==> FreeFrom(earlier, job.agv) <= FreeFrom(earlier, k))
    && (forall k :: 0 <= k < job.agv ==> FreeFrom(earlier, job.agv) < FreeFrom(earlier, k))
    && job.start >= arrival && job.start >= FreeFrom(earlier, job.agv)
    && (job.start == arrival || job.start == FreeFrom(earlier, job.agv))
    && job.finish == job.start + service
  }

  /** The day's record, pallet by pallet. */
  ghost predicate QueueDay(fleet: nat, arrivals: seq<real>, services: seq<real>, operating: real, jobs: seq<Job>,
    waits: seq<real>, backlog: nat)
  {
    && |jobs| == |waits| == |arrivals| == |services|
    && (forall j :: 0 <= j < |jobs| ==> FirstCome(fleet, arrivals[j], services[j], jobs[..j], jobs[j]))
    && (forall j :: 0 <= j < |jobs| ==> waits[j] == jobs[j].start - arrivals[j])
    && backlog == |set j | 0 <= j < |jobs| && jobs[j].finish > operating|
  }

  lemma {:induction false} FleetFromJobs(fleet: nat, arrivals: seq<real>, services: seq<real>, n: nat, k: nat)
    requires fleet > 0 && |services| == |arrivals| && n <= |arrivals| && k < fleet
    ensures FreeAfter(fleet, arrivals, services, n)[k] == FreeFrom(Day(fleet, arrivals, services)[..n], k)
  {
    if n > 0 {
      FleetFromJobs(fleet, arrivals, services, n - 1, k);
      var day := Day(fleet, arrivals, services);
      assert day[..n][..n - 1] == day[..n - 1];
    }
  }

  lemma {:induction false} DayIsFirstCome(fleet: nat, arrivals: seq<real>, services: seq<real>, j: nat)
    requires fleet > 0 && |services| == |arrivals| && j < |arrivals|
    ensures var day := Day(fleet, arrivals, services);
      FirstCome(fleet, arrivals[j], services[j], day[..j], day[j])
  {
    var day, free := Day(fleet, arrivals, services), FreeAfter(fleet, arrivals, services, j);
    EarliestIsFirstLeast(free);
    forall k | 0 <= k < fleet ensures free[k] == FreeFrom(day[..j], k) {
      FleetFromJobs(fleet, arrivals, services, j, k);
    }
  }

  lemma {:induction false} WaitsAre(jobs: seq<Job>, arrivals: seq<real>, j: nat)
    requires j < |jobs| <= |arrivals|
    ensures Waits(jobs, arrivals)[j] == jobs[j].start - arrivals[j]
  {
    if j < |jobs| - 1 {
      WaitsAre(jobs[..|jobs| - 1], arrivals, j);
    }
  }

  lemma {:induction false} BacklogCounts(jobs: seq<Job>, operating: real)
    ensures Backlog(jobs, operating) == |set j | 0 <= j < |jobs| && jobs[j].finish > operating|
  {
    if jobs != [] {
      var n := |jobs| - 1;
      BacklogCounts(jobs[..n], operating);
      var before := set j | 0 <= j < n && jobs[..n][j].finish > operating;
      var late := set j | 0 <= j < |jobs| && jobs[j].finish > operating;
      assert late == before + if jobs[n].finish > operating then {n} else {};
    }
  }

  lemma {:induction false} DayIsQueueDay(fleet: nat, arrivals: seq<real>, services: seq<real>, operating: real)
    requires fleet > 0 && |services| == |arrivals|
    ensures var jobs := Day(fleet, arrivals, services);
      QueueDay(fleet, arrivals, services, operating, jobs, Waits(jobs, arrivals), Backlog(jobs, operating))
  {
    hide Waits, Backlog, FirstCome, Day;
    var jobs := Day(fleet, arrivals, services);
    DayHasOneJobEach(fleet, arrivals, services);
    forall j | 0 <= j < |jobs| ensures FirstCome(fleet, arrivals[j], services[j], jobs[..j], jobs[j]) {
      DayIsFirstCome(fleet, arrivals, services, j);
    }
    forall j | 0 <= j < |jobs| ensures Waits(jobs, arrivals)[j] == jobs[j].start - arrivals[j] {
      WaitsAre(jobs, arrivals, j);
    }
    BacklogCounts(jobs, operating);
  }

  lemma DayHasOneJobEach(fleet: nat, arrivals: seq<real>, services: seq<real>)
    requires fleet > 0 && |services| == |arrivals|
    ensures |Day(fleet, arrivals, services)| == |arrivals|
  {
  }

  /** One simulated day, with the fleet's free times updated in place. */
  method SimulateDay(fleet: nat, arrivals: seq<real>, services: seq<real>, operating: real)
    returns (jobs: seq<Job>, waits: seq<real>, backlog: nat)
    requires fleet > 0 && |services| == |arrivals|
    ensures jobs == Day(fleet, arrivals, services)
    ensures waits == Waits(jobs, arrivals)
    ensures backlog == Backlog(jobs, operating)
    ensures QueueDay(fleet, arrivals, services, operating, jobs, waits, backlog)
  {
    hide Served, Day, Waits, Backlog, FreeAfter, QueueDay;
    DayIsQueueDay(fleet, arrivals, services, operating);
    var free := new real[fleet](_ => 0.0);
    jobs, waits, backlog := [], [], 0;
    ServedNone(fleet, arrivals, services, operating, free[..]);
    for n := 0 to |arrivals|
      invariant Served(fleet, arrivals, services, operating, n, free[..], jobs, waits, backlog)
    {
      ServeNext(fleet, arrivals, services, operating, n, free[..], jobs, waits, backlog);
      ghost var before := free[..];
      var agv := Earliest(free[..]);
      var start := Max(arrivals[n], free[agv]);
      var finish := start + services[n];
      free[agv] := finish;
      assert free[..] == before[agv := finish];
      waits := waits + [start - arrivals[n]];
      if finish > operating {
        backlog := backlog + 1;
      }
      jobs := jobs + [Job(agv, start, finish)];
    }
    ServedAll(fleet, arrivals, services, operating, free[..], jobs, waits, backlog);
  }

  // ---- Work conservation and first-come order ----

  lemma {:induction false} FreeTimesGrow(fleet: nat, arrivals: seq<real>, services: seq<real>, m: nat, n: nat)
    requires fleet > 0 && m <= n <= |arrivals| && |services| == |arrivals| && NonNegative(services)
    ensures forall k :: 0 <= k < fleet ==>
      FreeAfter(fleet, arrivals, services, m)[k] <= FreeAfter(fleet, arrivals, services, n)[k]
    decreases n
  {
    if m < n {
      FreeTimesGrow(fleet, arrivals, services, m, n - 1);
      EarliestIsFirstLeast(FreeAfter(fleet, arrivals, services, n - 1));
    }
  }

  /** Pallets start in the order in which they arrive. */
  lemma {:induction false} StartsInArrivalOrder(fleet: nat, arrivals: seq<real>, services: seq<real>, i: nat, j: nat)
    requires fleet > 0 && |services| == |arrivals| && Ordered(arrivals) && NonNegative(services)
    requires i <= j < |arrivals|
    ensures JobAt(fleet, arrivals, services, i).start <= JobAt(fleet, arrivals, services, j).start
  {
    FreeTimesGrow(fleet, arrivals, services, i, j);
    var a := FreeAfter(fleet, arrivals, services, i);
    var b := FreeAfter(fleet, arrivals, services, j);
    EarliestIsFirstLeast(a);
    assert a[Earliest(a)] <= a[Earliest(b)] <= b[Earliest(b)];
  }

  /** An AGV never serves two pallets at once: its next job starts no earlier than the last one ends. */
  lemma {:induction false} OnePalletAtATime(fleet: nat, arrivals: seq<real>, services: seq<real>, i: nat, j: nat)
    requires fleet > 0 && |services| == |arrivals| && NonNegative(services)
    requires i < j < |arrivals|
    requires JobAt(fleet, arrivals, services, i).agv == JobAt(fleet, arrivals, services, j).agv
    ensures JobAt(fleet, arrivals, services, i).finish <= JobAt(fleet, arrivals, services, j).start
  {
    FreeTimesGrow(fleet, arrivals, services, i + 1, j);
    EarliestIsFirstLeast(FreeAfter(fleet, arrivals, services, j));
  }

  /** AGV `k` is in the middle of one of the first `n` jobs at time `t`. */
  ghost predicate BusyAt(fleet: nat, arrivals: seq<real>, services: seq<real>, n: nat, k: nat, t: real)
    requires fleet > 0 && |services| == |arrivals| && n <= |arrivals|
  {
    exists i | 0 <= i < n ::
      var job := JobAt(fleet, arrivals, services, i);
      job.agv == k && job.start <= t < job.finish
  }

  /** An AGV that is booked beyond `t`, when everyone booked had arrived by `t`, is working at `t`. */
  lemma {:induction false} BookedMeansBusy(fleet: nat, arrivals: seq<real>, services: seq<real>, n: nat, k: nat,
    t: real)
    requires fleet > 0 && |services| == |arrivals| && n <= |arrivals| && k < fleet
    requires 0.0 <= t < FreeAfter(fleet, arrivals, services, n)[k]
    requires forall i :: 0 <= i < n ==> arrivals[i] <= t
    ensures BusyAt(fleet, arrivals, services, n, k, t)
  {
    if n > 0 {
      var job := JobAt(fleet, arrivals, services, n - 1);
      if job.agv == k && job.start <= t {
        assert job.finish == FreeAfter(fleet, arrivals, services, n)[k];
      } else {
        BookedMeansBusy(fleet, arrivals, services, n - 1, k, t);
        var i :| 0 <= i < n - 1 && JobAt(fleet, arrivals, services, i).agv == k
          && JobAt(fleet, arrivals, services, i).start <= t < JobAt(fleet, arrivals, services, i).finish;
      }
    }
  }

  /** Work conservation: while a pallet waits, every AGV is busy at every instant. */
  lemma {:induction false} WaitsOnlyWhileAllBusy(fleet: nat, arrivals: seq<real>, services: seq<real>, j: nat, t: real)
    requires fleet > 0 && |services| == |arrivals| && Ordered(arrivals)
    requires j < |arrivals| && arrivals[j] <= t < JobAt(fleet, arrivals, services, j).start
    ensures forall k :: 0 <= k < fleet ==> BusyAt(fleet, arrivals, services, j, k, t)
  {
    EarliestIsFirstLeast(FreeAfter(fleet, arrivals, services, j));
    forall k | 0 <= k < fleet
      ensures BusyAt(fleet, arrivals, services, j, k, t)
    {
      BookedMeansBusy(fleet, arrivals, services, j, k, t);
    }
  }

  // ---- Monotonicity in fleet size, service times and arrivals ----

  /** How many AGVs are free by time `t`. */
  ghost function FreeBy(free: seq<real>, t: real): nat {
    if free == [] then 0 else FreeBy(free[..|free| - 1], t) + (if free[|free| - 1] <= t then 1 else 0)
  }

  /** Fleet `b` is never worse off than fleet `a`: at every time it has at least as many free AGVs.
      `NoWorseIsDominance` says this of the sorted free times. */
  ghost predicate NoWorse(b: seq<real>, a: seq<real>) {
    forall t: real :: FreeBy(a, t) <= FreeBy(b, t)
  }

  predicate Ascending(times: seq<real>) {
    forall i, j :: 0 <= i <= j < |times| ==> times[i] <= times[j]
  }

  function Insert(t: real, times: seq<real>): seq<real> {
    if times == [] then [t]
    else
      var n := |times| - 1;
      if times[n] <= t then times + [t] else Insert(t, times[..n]) + [times[n]]
  }

  /** The free times of a fleet in ascending order. */
  function Ranked(free: seq<real>): seq<real> {
    if free == [] then [] else Insert(free[|free| - 1], Ranked(free[..|free| - 1]))
  }

  lemma {:induction false} FreeByAppend(times: seq<real>, t: real, at: real)
    ensures FreeBy(times + [t], at) == FreeBy(times, at) + (if t <= at then 1 else 0)
  {
    assert (times + [t])[..|times|] == times;
  }

  lemma {:induction false} InsertKeeps(t: real, times: seq<real>, at: real)
    requires Ascending(times)
    ensures |Insert(t, times)| == |times| + 1 && Ascending(Insert(t, times))
    ensures multiset(Insert(t, times)) == multiset(times) + multiset{t}
    ensures FreeBy(Insert(t, times), at) == FreeBy(times, at) + (if t <= at then 1 else 0)
    decreases times, 1
  {
    hide FreeBy, Insert, Ascending;
    if times != [] && t < times[|times| - 1] {
      InsertEarlier(t, times, at);
    } else {
      InsertAtEnd(t, times, at);
    }
  }

  lemma InsertAtEnd(t: real, times: seq<real>, at: real)
    requires Ascending(times) && (times == [] || times[|times| - 1] <= t)
    ensures Insert(t, times) == times + [t] && Ascending(times + [t])
    ensures multiset(times + [t]) == multiset(times) + multiset{t}
    ensures FreeBy(times + [t], at) == FreeBy(times, at) + (if t <= at then 1 else 0)
  {
    FreeByAppend(times, t, at);
  }

  lemma {:induction false} InsertEarlier(t: real, times: seq<real>, at: real)
    requires Ascending(times) && times != [] && t < times[|times| - 1]
    ensures |Insert(t, times)| == |times| + 1 && Ascending(Insert(t, times))
    ensures multiset(Insert(t, times)) == multiset(times) + multiset{t}
    ensures FreeBy(Insert(t, times), at) == FreeBy(times, at) + (if t <= at then 1 else 0)
    decreases times, 0
  {
    hide FreeBy, Insert;
    var rest, last := times[..|times| - 1], times[|times| - 1];
    assert times == rest + [last];
    InsertKeeps(t, rest, at);
    InsertBelow(t, rest, last);
    InsertLast(t, times);
    FreeByAppend(Insert(t, rest), last, at);
    FreeByAppend(rest, last, at);
  }

  lemma InsertLast(t: real, times: seq<real>)
    requires times != [] && t < times[|times| - 1]
    ensures Insert(t, times) == Insert(t, times[..|times| - 1]) + [times[|times| - 1]]
  {
  }

  lemma {:induction false} InsertBelow(t: real, times: seq<real>, bound: real)
    requires t <= bound && forall i :: 0 <= i < |times| ==> times[i] <= bound
    ensures forall i :: 0 <= i < |Insert(t, times)| ==> Insert(t, times)[i] <= bound
  {
    if times != [] && times[|times| - 1] > t {
      InsertBelow(t, times[..|times| - 1], bound);
    }
  }

  /** Ranking rearranges the free times in ascending order, and leaves how many are free by any time. */
  lemma {:induction false} RankedKeeps(free: seq<real>, at: real)
    ensures |Ranked(free)| == |free| && Ascending(Ranked(free)) && multiset(Ranked(free)) == multiset(free)
    ensures FreeBy(Ranked(free), at) == FreeBy(free, at)
  {
    if free != [] {
      var n := |free| - 1;
      RankedKeeps(free[..n], at);
      InsertKeeps(free[n], Ranked(free[..n]), at);
      assert free == free[..n] + [free[n]];
    }
  }

  lemma {:induction false} PointwiseMeansNoFewer(b: seq<real>, a: seq<real>, at: real)
    requires |a| <= |b| && forall i :: 0 <= i < |a| ==> b[i] <= a[i]
    ensures FreeBy(a, at) <= FreeBy(b, at)
    decreases |b|
  {
    if |a| < |b| {
      PointwiseMeansNoFewer(b[..|b| - 1], a, at);
    } else if a != [] {
      PointwiseMeansNoFewer(b[..|b| - 1], a[..|a| - 1], at);
    }
  }

  /** In ascending order, the AGV of rank `i` is free by `at` exactly when more than `i` are. */
  lemma {:induction false} RankIsCount(times: seq<real>, i: nat, at: real)
    requires Ascending(times) && i < |times|
    ensures times[i] <= at <==> FreeBy(times, at) > i
    ensures FreeBy(times, at) <= |times|
  {
    var n := |times| - 1;
    assert forall k :: 0 <= k < n ==> times[..n][k] == times[k];
    if n > 0 {
      RankIsCount(times[..n], if i < n then i else n - 1, at);
    }
  }

  /** A fleet is no worse off exactly when it is no smaller and its sorted free times, as far as the
      other's go, are dominated componentwise by them. */
  lemma {:induction false} NoWorseIsDominance(b: seq<real>, a: seq<real>)
    ensures |Ranked(a)| == |a| && |Ranked(b)| == |b|
    ensures NoWorse(b, a) <==> |a| <= |b| && forall i :: 0 <= i < |a| ==> Ranked(b)[i] <= Ranked(a)[i]
  {
    var ra, rb := Ranked(a), Ranked(b);
    forall at: real ensures RankedAlike(a, at) && RankedAlike(b, at) {
      RankedKeeps(a, at);
      RankedKeeps(b, at);
    }
    assert RankedAlike(a, 0.0) && RankedAlike(b, 0.0);
    if NoWorse(b, a) {
      forall i | 0 <= i < |a| ensures i < |b| && rb[i] <= ra[i] {
        RankOfBetter(b, a, i);
      }
      assert a != [] ==> |a| - 1 < |b|;
    }
    if |a| <= |b| && forall i :: 0 <= i < |a| ==> rb[i] <= ra[i] {
      forall at: real ensures FreeBy(a, at) <= FreeBy(b, at) {
        assert RankedAlike(a, at) && RankedAlike(b, at);
        PointwiseMeansNoFewer(rb, ra, at);
      }
    }
  }

  lemma RankOfBetter(b: seq<real>, a: seq<real>, i: nat)
    requires NoWorse(b, a) && i < |a|
    ensures |Ranked(a)| == |a| && |Ranked(b)| == |b| && i < |b| && Ranked(b)[i] <= Ranked(a)[i]
  {
    RankedKeeps(a, 0.0);
    var at := Ranked(a)[i];
    RankedKeeps(a, at);
    RankedKeeps(b, at);
    RankIsCount(Ranked(a), i, at);
    assert FreeBy(a, at) <= FreeBy(b, at);
    if b != [] {
      RankIsCount(Ranked(b), if i < |b| then i else 0, at);
    }
  }

  ghost predicate RankedAlike(free: seq<real>, at: real) {
    |Ranked(free)| == |free| && Ascending(Ranked(free)) && FreeBy(Ranked(free), at) == FreeBy(free, at)
  }

  lemma {:induction false} FreeByUpdate(free: seq<real>, k: nat, v: real, t: real)
    requires k < |free|
    ensures FreeBy(free[k := v], t)
         == FreeBy(free, t) - (if free[k] <= t then 1 else 0) + (if v <= t then 1 else 0)
  {
    var n := |free| - 1;
    if k < n {
      FreeByUpdate(free[..n], k, v, t);
      assert free[k := v][..n] == free[..n][k := v];
    } else {
      assert free[k := v][..n] == free[..n];
    }
  }

  lemma {:induction false} FreeByZeroIffBeforeAll(free: seq<real>, t: real)
    ensures FreeBy(free, t) == 0 <==> forall i :: 0 <= i < |free| ==> t < free[i]
  {
    if free != [] {
      FreeByZeroIffBeforeAll(free[..|free| - 1], t);
      forall i | 0 <= i < |free| - 1 ensures free[..|free| - 1][i] == free[i] {}
    }
  }

  lemma {:induction false} NoWorseStartsNoLater(b: seq<real>, a: seq<real>)
    requires |a| > 0 && |b| > 0 && NoWorse(b, a)
    ensures b[Earliest(b)] <= a[Earliest(a)]
  {
    var t := a[Earliest(a)];
    EarliestIsFirstLeast(a);
    EarliestIsFirstLeast(b);
    FreeByZeroIffBeforeAll(a, t);
    FreeByZeroIffBeforeAll(b, t);
    assert FreeBy(a, t) <= FreeBy(b, t);
  }

  /** Serving one pallet keeps the better fleet better. */
  lemma {:induction false} NoWorsePreserved(b: seq<real>, a: seq<real>, arrB: real, arrA: real, sB: real, sA: real)
    requires |a| > 0 && |b| > 0 && NoWorse(b, a)
    requires arrB <= arrA && 0.0 <= sB <= sA
    ensures Serve(b, arrB, sB).start <= Serve(a, arrA, sA).start
    ensures Serve(b, arrB, sB).finish <= Serve(a, arrA, sA).finish
    ensures var ja, jb := Serve(a, arrA, sA), Serve(b, arrB, sB);
      NoWorse(b[jb.agv := jb.finish], a[ja.agv := ja.finish])
  {
    NoWorseStartsNoLater(b, a);
    var ja, jb := Serve(a, arrA, sA), Serve(b, arrB, sB);
    var a', b' := a[ja.agv := ja.finish], b[jb.agv := jb.finish];
    forall t: real ensures FreeBy(a', t) <= FreeBy(b', t) {
      FreeByUpdate(a, ja.agv, ja.finish, t);
      FreeByUpdate(b, jb.agv, jb.finish, t);
      FreeByZeroIffBeforeAll(a, t);
      EarliestIsFirstLeast(a);
      assert FreeBy(a, t) <= FreeBy(b, t);
    }
  }

  lemma {:induction false} AllFreeAtOpening(fleet: nat, t: real)
    ensures FreeBy(seq(fleet, _ => 0.0), t) == if 0.0 <= t then fleet else 0
  {
    if fleet > 0 {
      AllFreeAtOpening(fleet - 1, t);
      assert seq(fleet, _ => 0.0)[..fleet - 1] == seq(fleet - 1, _ => 0.0);
    }
  }

  /** The dominance is kept through the whole loop. */
  lemma {:induction false} BetterFleetStaysBetter(
    fleetA: nat, arrA: seq<real>, sA: seq<real>, fleetB: nat, arrB: seq<real>, sB: seq<real>, n: nat)
    requires 0 < fleetA <= fleetB && |arrA| == |sA| == |arrB| == |sB| && n <= |arrA|
    requires forall i :: 0 <= i < |arrA| ==> arrB[i] <= arrA[i]
    requires forall i :: 0 <= i < |sA| ==> 0.0 <= sB[i] <= sA[i]
    ensures NoWorse(FreeAfter(fleetB, arrB, sB, n), FreeAfter(fleetA, arrA, sA, n))
  {
    if n == 0 {
      var a, b := FreeAfter(fleetA, arrA, sA, 0), FreeAfter(fleetB, arrB, sB, 0);
      forall t: real ensures FreeBy(a, t) <= FreeBy(b, t) {
        AllFreeAtOpening(fleetA, t);
        AllFreeAtOpening(fleetB, t);
      }
    } else {
      BetterFleetStaysBetter(fleetA, arrA, sA, fleetB, arrB, sB, n - 1);
      NoWorsePreserved(FreeAfter(fleetB, arrB, sB, n - 1), FreeAfter(fleetA, arrA, sA, n - 1),
        arrB[n - 1], arrA[n - 1], sB[n - 1], sA[n - 1]);
    }
  }

  /** Adding AGVs, shortening any service times or advancing any arrivals never delays a pallet. */
  lemma {:induction false} MoreCapacityNeverDelays(
    fleetA: nat, arrA: seq<real>, sA: seq<real>, fleetB: nat, arrB: seq<real>, sB: seq<real>, j: nat)
    requires 0 < fleetA <= fleetB && |arrA| == |sA| == |arrB| == |sB| && j < |arrA|
    requires forall i :: 0 <= i < |arrA| ==> arrB[i] <= arrA[i]
    requires forall i :: 0 <= i < |sA| ==> 0.0 <= sB[i] <= sA[i]
    ensures JobAt(fleetB, arrB, sB, j).start <= JobAt(fleetA, arrA, sA, j).start
    ensures JobAt(fleetB, arrB, sB, j).finish <= JobAt(fleetA, arrA, sA, j).finish
  {
    BetterFleetStaysBetter(fleetA, arrA, sA, fleetB, arrB, sB, j);
    NoWorsePreserved(FreeAfter(fleetB, arrB, sB, j), FreeAfter(fleetA, arrA, sA, j), arrB[j], arrA[j], sB[j], sA[j]);
  }

  lemma {:induction false} EarlierFinishesLowerBacklog(a: seq<Job>, b: seq<Job>, operating: real)
    requires |a| == |b|
    requires forall j :: 0 <= j < |a| ==> b[j].finish <= a[j].finish
    ensures Backlog(b, operating) <= Backlog(a, operating)
  {
    if a != [] {
      EarlierFinishesLowerBacklog(a[..|a| - 1], b[..|b| - 1], operating);
    }
  }

  /** So neither does it leave a larger end-of-day backlog. */
  lemma {:induction false} MoreCapacityNeverRaisesBacklog(
    fleetA: nat, arrA: seq<real>, sA: seq<real>, fleetB: nat, arrB: seq<real>, sB: seq<real>, operating: real)
    requires 0 < fleetA <= fleetB && |arrA| == |sA| == |arrB| == |sB|
    requires forall i :: 0 <= i < |arrA| ==> arrB[i] <= arrA[i]
    requires forall i :: 0 <= i < |sA| ==> 0.0 <= sB[i] <= sA[i]
    ensures Backlog(Day(fleetB, arrB, sB), operating) <= Backlog(Day(fleetA, arrA, sA), operating)
  {
    forall j | 0 <= j < |arrA| {
      MoreCapacityNeverDelays(fleetA, arrA, sA, fleetB, arrB, sB, j);
    }
    EarlierFinishesLowerBacklog(Day(fleetA, arrA, sA), Day(fleetB, arrB, sB), operating);
  }
}
