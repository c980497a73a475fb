/**
 A whole open-loop run: the sources dealt over the workers, each worker driven by
 its own script, and the workers' metrics merged (`run` in rust/bench/src/driver.rs).
 */
module DriverFleet {
  import opened Common
  import opened DriverMetrics
  import opened RoundRobin
  import opened Driver

  function CeilDiv(a: nat, b: nat): nat
    requires b > 0
  {
    (a + b - 1) / b
  }

  /** `cfg.workers` clamped to between one and the number of sources. */
  function WorkerCount(workers: nat, sources: nat): (n: nat)
    ensures 1 <= n && (sources > 0 ==> n <= sources)
  {
    Min(Max(workers, 1), Max(sources, 1))
  }

  /** Worker `i`'s share of `whole`, whose `cap` is the concurrency of the entire run. */
  function Share(whole: Plan, n: nat, i: nat): Plan
    requires n > 0 && i < n
  {
    Plan(Deal(whole.first, n)[i], whole.period, whole.deadline, Max(CeilDiv(whole.cap, n), 1))
  }

  ghost predicate Drained(whole: Plan, n: nat, scripts: seq<seq<Event>>) {
    n > 0 && |scripts| == n && forall i :: 0 <= i < n ==> Run(Share(whole, n, i), scripts[i]).flight == []
  }

  ghost function WorkerResult(whole: Plan, n: nat, scripts: seq<seq<Event>>, i: nat): Metrics
    requires Drained(whole, n, scripts) && i < n
  {
    Result(Share(whole, n, i), Run(Share(whole, n, i), scripts[i]))
  }

  /** What the workers return. */
  ghost function Results(whole: Plan, n: nat, scripts: seq<seq<Event>>): (ms: seq<Metrics>)
    requires Drained(whole, n, scripts)
  {
    seq(n, i requires 0 <= i < n => WorkerResult(whole, n, scripts, i))
  }

  function WorkerTicks(whole: Plan, n: nat, scripts: seq<seq<Event>>, i: nat): nat
    requires whole.period > 0 && i < n == |scripts|
  {
    Planned(Share(whole, n, i), scripts[i])
  }

  /** The ticks each worker reports, capped at a u64. */
  function Reported(whole: Plan, n: nat, scripts: seq<seq<Event>>): seq<nat>
    requires whole.period > 0 && n == |scripts|
  {
    seq(n, i requires 0 <= i < n => Min(WorkerTicks(whole, n, scripts, i), U64_MAX))
  }

  function Total(ts: seq<nat>): nat {
    if ts == [] then 0 else Total(ts[..|ts| - 1]) + ts[|ts| - 1]
  }

  /** The workers among the first `k` that take a late tick. */
  function LateWorkers(whole: Plan, n: nat, scripts: seq<seq<Event>>, k: nat): (late: nat)
    requires k <= n == |scripts|
    ensures late <= k
  {
    if k == 0 then 0
    else LateWorkers(whole, n, scripts, k - 1) + if LateTaken(Share(whole, n, k - 1), scripts[k - 1]) then 1 else 0
  }

  /** Worker `i`'s ticks fit its counters, or it never sent a request. */
  predicate Fits(whole: Plan, n: nat, scripts: seq<seq<Event>>, i: nat)
    requires whole.period > 0 && i < n == |scripts|
  {
    WorkerTicks(whole, n, scripts, i) <= U64_MAX || SentCount(Share(whole, n, i), scripts[i]) == 0
  }

  /** Ticks counted as dispatched or dropped beyond those scheduled. */
  function Excess(m: Metrics): int {
    m.dispatched + m.dropped - m.scheduled
  }

  function TotalExcess(ms: seq<Metrics>): int {
    if ms == [] then 0 else TotalExcess(ms[..|ms| - 1]) + Excess(ms[|ms| - 1])
  }

  function TotalScheduled(ms: seq<Metrics>): nat {
    if ms == [] then 0 else TotalScheduled(ms[..|ms| - 1]) + ms[|ms| - 1].scheduled
  }

  function DealtTicks(p: Plan, buckets: seq<seq<nat>>, k: nat): nat
    requires p.period > 0 && k <= |buckets|
  {
    if k == 0 then 0 else DealtTicks(p, buckets, k - 1) + TotalTicks(p, buckets[k - 1])
  }

  lemma {:induction false} OneMoreTick(p: Plan, buckets: seq<seq<nat>>, b: nat, t: nat, k: nat)
    requires p.period > 0 && b < |buckets| && k <= |buckets|
    ensures DealtTicks(p, buckets[b := buckets[b] + [t]], k)
         == DealtTicks(p, buckets, k) + if b < k then Ticks(p, t) else 0
  {
    if k > 0 {
      OneMoreTick(p, buckets, b, t, k - 1);
      if k - 1 == b {
        assert (buckets[b] + [t])[..|buckets[b]|] == buckets[b];
      }
    }
  }

  lemma {:induction false} NoTicks(p: Plan, n: nat, k: nat)
    requires p.period > 0 && k <= n
    ensures DealtTicks(p, seq(n, i => []), k) == 0
  {
    if k > 0 { NoTicks(p, n, k - 1); }
  }

  /** Dealing the sources over the workers neither loses nor adds a tick. */
  lemma {:induction false} DealingKeepsTicks(p: Plan, first: seq<nat>, n: nat)
    requires p.period > 0 && n > 0
    ensures DealtTicks(p, Deal(first, n), n) == TotalTicks(p, first)
  {
    if first == [] {
      NoTicks(p, n, n);
    } else {
      var last := |first| - 1;
      DealingKeepsTicks(p, first[..last], n);
      OneMoreTick(p, Deal(first[..last], n), last % n, first[last], n);
    }
  }

  lemma {:induction false} SameTicks(p: Plan, q: Plan, t: nat)
    requires p.period == q.period > 0 && p.deadline == q.deadline
    ensures Ticks(p, t) == Ticks(q, t)
    decreases p.deadline - t
  {
    if t < p.deadline { SameTicks(p, q, t + p.period); }
  }

  lemma {:induction false} SameTotal(p: Plan, q: Plan, ts: seq<nat>)
    requires p.period == q.period > 0 && p.deadline == q.deadline
    ensures TotalTicks(p, ts) == TotalTicks(q, ts)
  {
    if ts != [] {
      SameTotal(p, q, ts[..|ts| - 1]);
      SameTicks(p, q, ts[|ts| - 1]);
    }
  }

  lemma OneWorker(whole: Plan, n: nat, scripts: seq<seq<Event>>, i: nat)
    requires whole.period > 0 && Drained(whole, n, scripts) && i < n
    ensures var m := WorkerResult(whole, n, scripts, i);
            && Balanced(m) && m.scheduled == Min(WorkerTicks(whole, n, scripts, i), U64_MAX)
            && Excess(m) >= 0 && (Excess(m) == 0 <==> Fits(whole, n, scripts, i))
  {
    WorkerAccounts(Share(whole, n, i), scripts[i]);
  }

  lemma {:induction false} JoinedBalanced(ms: seq<Metrics>)
    requires forall i :: 0 <= i < |ms| ==> Balanced(ms[i])
    ensures Balanced(Joined(ms))
  {
    if ms == [] {
      assert Sum([]) == 0;
    } else {
      JoinedBalanced(ms[..|ms| - 1]);
      MergeBalances(Joined(ms[..|ms| - 1]), ms[|ms| - 1]);
    }
  }

  lemma {:induction false} JoinedCounts(ms: seq<Metrics>)
    ensures Joined(ms).scheduled == TotalScheduled(ms) && Excess(Joined(ms)) == TotalExcess(ms)
  {
    if ms != [] { JoinedCounts(ms[..|ms| - 1]); }
  }

  /** With no worker short, nothing is in excess in all exactly if nothing is anywhere. */
  lemma {:induction false} NoExcess(ms: seq<Metrics>)
    requires forall i :: 0 <= i < |ms| ==> Excess(ms[i]) >= 0
    ensures TotalExcess(ms) >= 0
    ensures TotalExcess(ms) == 0 <==> forall i :: 0 <= i < |ms| ==> Excess(ms[i]) == 0
  {
    if ms != [] {
      var front := ms[..|ms| - 1];
      NoExcess(front);
      assert forall i :: 0 <= i < |front| ==> front[i] == ms[i];
      assert (forall i :: 0 <= i < |ms| ==> Excess(ms[i]) == 0) <==>
             (forall i :: 0 <= i < |front| ==> Excess(front[i]) == 0) && Excess(ms[|ms| - 1]) == 0;
    }
  }

  lemma {:induction false} ScheduledIsReported(ms: seq<Metrics>, ts: seq<nat>)
    requires |ms| == |ts| && forall i :: 0 <= i < |ms| ==> ms[i].scheduled == ts[i]
    ensures TotalScheduled(ms) == Total(ts)
  {
    if ms != [] { ScheduledIsReported(ms[..|ms| - 1], ts[..|ts| - 1]); }
  }

  /** While every worker's ticks fit, the reported ticks are the dealt ones and one for each late worker. */
  lemma {:induction false} ReportedTicks(whole: Plan, n: nat, scripts: seq<seq<Event>>, k: nat)
    requires whole.period > 0 && 0 < n == |scripts| && k <= n
    requires forall i :: 0 <= i < n ==> WorkerTicks(whole, n, scripts, i) <= U64_MAX
    ensures Total(Reported(whole, n, scripts)[..k]) ==
              DealtTicks(whole, Deal(whole.first, n), k) + LateWorkers(whole, n, scripts, k)
  {
    if k > 0 {
      var ts := Reported(whole, n, scripts);
      ReportedTicks(whole, n, scripts, k - 1);
      SameTotal(whole, Share(whole, n, k - 1), Share(whole, n, k - 1).first);
      assert ts[..k][..k - 1] == ts[..k - 1];
    }
  }

  lemma AllWorkers(whole: Plan, n: nat, scripts: seq<seq<Event>>)
    requires whole.period > 0 && Drained(whole, n, scripts)
    ensures var m := Joined(Results(whole, n, scripts));
            && Balanced(m) && m.scheduled == Total(Reported(whole, n, scripts))
            && (Accounted(m) <==> forall i :: 0 <= i < n ==> Fits(whole, n, scripts, i))
  {
    var ms := Results(whole, n, scripts);
    forall i | 0 <= i < n
      ensures Balanced(ms[i]) && ms[i].scheduled == Reported(whole, n, scripts)[i]
      ensures Excess(ms[i]) >= 0 && (Excess(ms[i]) == 0 <==> Fits(whole, n, scripts, i))
    {
      OneWorker(whole, n, scripts, i);
    }
    JoinedBalanced(ms);
    JoinedCounts(ms);
    ScheduledIsReported(ms, Reported(whole, n, scripts));
    NoExcess(ms);
  }

  lemma FittingTicks(whole: Plan, n: nat, scripts: seq<seq<Event>>)
    requires whole.period > 0 && 0 < n == |scripts|
    requires forall i :: 0 <= i < n ==> WorkerTicks(whole, n, scripts, i) <= U64_MAX
    ensures Total(Reported(whole, n, scripts)) == TotalTicks(whole, whole.first) + LateWorkers(whole, n, scripts, n)
  {
    ReportedTicks(whole, n, scripts, n);
    DealingKeepsTicks(whole, whole.first, n);
    assert Reported(whole, n, scripts)[..n] == Reported(whole, n, scripts);
  }

  /**
   However the sources are dealt, the requests complete and the workers are joined,
   the merged report is balanced and schedules each worker's planned ticks, capped at
   a u64. It accounts for every tick as dispatched or dropped exactly when each
   worker's ticks fit or it sent nothing; and while they fit, it schedules exactly
   the ticks of the whole plan and one for each worker that took a late tick.
   */
  lemma RunAccounts(whole: Plan, n: nat, scripts: seq<seq<Event>>, order: seq<Metrics>)
    requires whole.period > 0 && Drained(whole, n, scripts)
    requires multiset(order) == multiset(Results(whole, n, scripts))
    ensures var m := Joined(order);
            && Balanced(m)
            && m.scheduled == Total(Reported(whole, n, scripts))
            && (Accounted(m) <==> forall i :: 0 <= i < n ==> Fits(whole, n, scripts, i))
            && ((forall i :: 0 <= i < n ==> WorkerTicks(whole, n, scripts, i) <= U64_MAX) ==>
                  m.scheduled == TotalTicks(whole, whole.first) + LateWorkers(whole, n, scripts, n))
  {
    AllWorkers(whole, n, scripts);
    JoinedInAnyOrder(order, Results(whole, n, scripts));
    if forall i :: 0 <= i < n ==> WorkerTicks(whole, n, scripts, i) <= U64_MAX {
      FittingTicks(whole, n, scripts);
    }
  }

  /** With at least one source every worker has one, so no worker is skipped. */
  lemma NoWorkerIdle(first: seq<nat>, workers: nat, i: nat)
    requires first != [] && i < WorkerCount(workers, |first|)
    ensures Deal(first, WorkerCount(workers, |first|))[i] != []
  {
    var n := WorkerCount(workers, |first|);
    Quotient(i, n, 0, i);
    EveryItemDealt(first, n, i);
  }

  lemma Rounded(a: nat, b: nat)
    requires b > 0
    ensures a <= CeilDiv(a, b) * b < a + b
  {
    assert a + b - 1 == CeilDiv(a, b) * b + (a + b - 1) % b;
  }

  /** The workers' caps add up to the run's concurrency, exceeding it by less than one per worker. */
  lemma CapsCover(whole: Plan, n: nat)
    requires n > 0
    ensures var cap := Share(whole, n, 0).cap;
            whole.cap <= cap * n && (whole.cap > 0 ==> cap * n < whole.cap + n)
  {
    Rounded(whole.cap, n);
    if CeilDiv(whole.cap, n) == 0 {
      assert CeilDiv(whole.cap, n) * n == 0;
    }
  }
}
