/** Worker-local counters and their merge (rust/bench/src/driver.rs). Histograms are left out. */
module DriverMetrics {
  import opened Common

  /** What one finished request reports. `second` is its place in the per-second series. */
  datatype Completion = Completion(
    dispatched: bool,
    logicalPayment: bool,
    status: Option<nat>,
    error: Option<string>,
    second: nat)

  datatype Metrics = Metrics(
    scheduled: nat,
    dispatched: nat,
    completed: nat,
    accepted: nat,
    ok: nat,
    fail: nat,
    dropped: nat,
    maxInFlight: nat,
    status: map<nat, nat>,
    errors: map<string, nat>,
    rps: seq<nat>,
    acceptedRps: seq<nat>)

  function Empty(): Metrics {
    Metrics(0, 0, 0, 0, 0, 0, 0, 0, map[], map[], [], [])
  }

  // ---- Series and count maps ---------------------------------------------

  function At(s: seq<nat>, i: nat): nat {
    if i < |s| then s[i] else 0
  }

  function RecordSeries(s: seq<nat>, second: nat): seq<nat> {
    seq(Max(|s|, second + 1), i requires 0 <= i => At(s, i) + if i == second then 1 else 0)
  }

  function MergeSeries(a: seq<nat>, b: seq<nat>): seq<nat> {
    seq(Max(|a|, |b|), i requires 0 <= i => At(a, i) + At(b, i))
  }

  function SumTo(s: seq<nat>, n: nat): nat {
    if n == 0 then 0 else SumTo(s, n - 1) + At(s, n - 1)
  }

  function Sum(s: seq<nat>): nat {
    SumTo(s, |s|)
  }

  function Get<K>(m: map<K, nat>, k: K): nat {
    if k in m then m[k] else 0
  }

  function Bump<K>(m: map<K, nat>, k: K): map<K, nat> {
    m[k := Get(m, k) + 1]
  }

  function MergeCounts<K>(a: map<K, nat>, b: map<K, nat>): map<K, nat> {
    map k | k in a.Keys + b.Keys :: Get(a, k) + Get(b, k)
  }

  lemma {:induction false} SumBeyond(s: seq<nat>, n: nat)
    requires |s| <= n
    ensures SumTo(s, n) == Sum(s)
  {
    if |s| < n { SumBeyond(s, n - 1); }
  }

  lemma {:induction false} SumToRecorded(s: seq<nat>, second: nat, n: nat)
    requires n <= Max(|s|, second + 1)
    ensures SumTo(RecordSeries(s, second), n) == SumTo(s, n) + if second < n then 1 else 0
  {
    if n > 0 { SumToRecorded(s, second, n - 1); }
  }

  lemma {:induction false} SumToMerged(a: seq<nat>, b: seq<nat>, n: nat)
    requires n <= Max(|a|, |b|)
    ensures SumTo(MergeSeries(a, b), n) == SumTo(a, n) + SumTo(b, n)
  {
    if n > 0 { SumToMerged(a, b, n - 1); }
  }

  /** A recorded completion adds one to the series, and merging adds the series up. */
  lemma SeriesSums(a: seq<nat>, b: seq<nat>, second: nat)
    ensures Sum(RecordSeries(a, second)) == Sum(a) + 1
    ensures Sum(MergeSeries(a, b)) == Sum(a) + Sum(b)
  {
    SumToRecorded(a, second, Max(|a|, second + 1));
    SumBeyond(a, Max(|a|, second + 1));
    SumToMerged(a, b, Max(|a|, |b|));
    SumBeyond(a, Max(|a|, |b|));
    SumBeyond(b, Max(|a|, |b|));
  }

  // ---- Recording and merging ---------------------------------------------

  predicate Success(c: Completion) {
    c.status.Some? && 200 <= c.status.value < 300
  }

  function RecordAnswer(m: Metrics, c: Completion): Metrics {
    var accepted := Success(c) && c.logicalPayment;
    m.(status := if c.status.Some? then Bump(m.status, c.status.value) else m.status,
       ok := m.ok + (if Success(c) then 1 else 0),
       fail := m.fail + (if Success(c) then 0 else 1),
       accepted := m.accepted + (if accepted then 1 else 0),
       acceptedRps := if accepted then RecordSeries(m.acceptedRps, c.second) else m.acceptedRps)
  }

  function Record(m: Metrics, c: Completion): Metrics {
    RecordAnswer(m, c)
      .(dispatched := m.dispatched + (if c.dispatched then 1 else 0),
        dropped := m.dropped + (if c.dispatched then 0 else 1),
        errors := if c.error.Some? then Bump(m.errors, c.error.value) else m.errors,
        completed := m.completed + 1,
        rps := RecordSeries(m.rps, c.second))
  }

  function Merge(a: Metrics, b: Metrics): Metrics {
    Metrics(
      a.scheduled + b.scheduled, a.dispatched + b.dispatched, a.completed + b.completed,
      a.accepted + b.accepted, a.ok + b.ok, a.fail + b.fail, a.dropped + b.dropped,
      a.maxInFlight + b.maxInFlight,
      MergeCounts(a.status, b.status), MergeCounts(a.errors, b.errors),
      MergeSeries(a.rps, b.rps), MergeSeries(a.acceptedRps, b.acceptedRps))
  }

  /** Every completion is a success or a failure, payments are accepted successes, series match counters. */
  ghost predicate Balanced(m: Metrics) {
    && m.completed == m.ok + m.fail
    && m.accepted <= m.ok
    && Sum(m.rps) == m.completed
    && Sum(m.acceptedRps) == m.accepted
  }

  /** Every scheduled tick was dispatched or dropped. */
  predicate Accounted(m: Metrics) {
    m.scheduled == m.dispatched + m.dropped
  }

  lemma RecordBalances(m: Metrics, c: Completion)
    requires Balanced(m)
    ensures Balanced(Record(m, c))
    ensures Record(m, c).dispatched + Record(m, c).dropped == m.dispatched + m.dropped + 1
  {
    SeriesSums(m.rps, [], c.second);
    SeriesSums(m.acceptedRps, [], c.second);
  }

  lemma MergeBalances(a: Metrics, b: Metrics)
    requires Balanced(a) && Balanced(b)
    ensures Balanced(Merge(a, b))
    ensures Accounted(a) && Accounted(b) ==> Accounted(Merge(a, b))
  {
    SeriesSums(a.rps, b.rps, 0);
    SeriesSums(a.acceptedRps, b.acceptedRps, 0);
  }

  lemma MergeCommutes(a: Metrics, b: Metrics)
    ensures Merge(a, b) == Merge(b, a)
  {
    assert MergeCounts(a.status, b.status) == MergeCounts(b.status, a.status);
    assert MergeCounts(a.errors, b.errors) == MergeCounts(b.errors, a.errors);
    assert MergeSeries(a.rps, b.rps) == MergeSeries(b.rps, a.rps);
    assert MergeSeries(a.acceptedRps, b.acceptedRps) == MergeSeries(b.acceptedRps, a.acceptedRps);
  }

  lemma CountsAssociate<K>(a: map<K, nat>, b: map<K, nat>, c: map<K, nat>)
    ensures MergeCounts(MergeCounts(a, b), c) == MergeCounts(a, MergeCounts(b, c))
  {
    var left, right := MergeCounts(MergeCounts(a, b), c), MergeCounts(a, MergeCounts(b, c));
    assert left.Keys == right.Keys;
    forall k | k in left.Keys ensures left[k] == right[k] {
      assert Get(MergeCounts(a, b), k) == Get(a, k) + Get(b, k);
      assert Get(MergeCounts(b, c), k) == Get(b, k) + Get(c, k);
    }
  }

  lemma SeriesAssociate(a: seq<nat>, b: seq<nat>, c: seq<nat>)
    ensures MergeSeries(MergeSeries(a, b), c) == MergeSeries(a, MergeSeries(b, c))
  {
    var left, right := MergeSeries(MergeSeries(a, b), c), MergeSeries(a, MergeSeries(b, c));
    forall i | 0 <= i < |left| ensures left[i] == right[i] {
      assert At(MergeSeries(a, b), i) == At(a, i) + At(b, i);
      assert At(MergeSeries(b, c), i) == At(b, i) + At(c, i);
    }
  }

  lemma MergeAssociates(a: Metrics, b: Metrics, c: Metrics)
    ensures Merge(Merge(a, b), c) == Merge(a, Merge(b, c))
  {
    CountsAssociate(a.status, b.status, c.status);
    CountsAssociate(a.errors, b.errors, c.errors);
    SeriesAssociate(a.rps, b.rps, c.rps);
    SeriesAssociate(a.acceptedRps, b.acceptedRps, c.acceptedRps);
  }

  function MergeAll(ms: seq<Metrics>): Metrics {
    if ms == [] then Empty() else Merge(ms[0], MergeAll(ms[1..]))
  }

  lemma {:induction false} MergePullsOut(ms: seq<Metrics>, i: nat)
    requires i < |ms|
    ensures MergeAll(ms) == Merge(ms[i], MergeAll(ms[..i] + ms[i + 1..]))
  {
    var rest := ms[..i] + ms[i + 1..];
    if i == 0 {
      assert rest == ms[1..];
    } else {
      MergePullsOut(ms[1..], i - 1);
      var inner := ms[1..][..i - 1] + ms[1..][i..];
      assert rest[0] == ms[0] && rest[1..] == inner;
      MergeAssociates(ms[0], ms[i], MergeAll(inner));
      MergeCommutes(ms[0], ms[i]);
      MergeAssociates(ms[i], ms[0], MergeAll(inner));
    }
  }

  lemma WithoutOne(ms: seq<Metrics>, i: nat)
    requires i < |ms|
    ensures multiset(ms[..i] + ms[i + 1..]) == multiset(ms) - multiset{ms[i]}
  {
    assert ms == ms[..i] + ([ms[i]] + ms[i + 1..]);
  }

  /** The totals do not depend on the order in which the workers are joined. */
  lemma {:induction false} MergeInAnyOrder(ms: seq<Metrics>, ns: seq<Metrics>)
    requires multiset(ms) == multiset(ns)
    ensures MergeAll(ms) == MergeAll(ns)
    decreases |ns|
  {
    if ns == [] {
      assert |multiset(ms)| == 0;
    } else {
      assert ns[0] in multiset(ms);
      var i :| 0 <= i < |ms| && ms[i] == ns[0];
      WithoutOne(ms, i);
      WithoutOne(ns, 0);
      assert ns[..0] + ns[1..] == ns[1..];
      MergeInAnyOrder(ms[..i] + ms[i + 1..], ns[1..]);
      MergePullsOut(ms, i);
    }
  }

  /** The totals as the join loop builds them, one finished worker after another. */
  function Joined(ms: seq<Metrics>): Metrics {
    if ms == [] then Empty() else Merge(Joined(ms[..|ms| - 1]), ms[|ms| - 1])
  }

  lemma {:induction false} JoinedIsMergeAll(ms: seq<Metrics>)
    ensures Joined(ms) == MergeAll(ms)
  {
    if ms != [] {
      var n := |ms| - 1;
      JoinedIsMergeAll(ms[..n]);
      MergePullsOut(ms, n);
      assert ms[..n] + ms[n + 1..] == ms[..n];
      MergeCommutes(ms[n], MergeAll(ms[..n]));
    }
  }

  /** So the join loop's totals do not depend on that order either. */
  lemma JoinedInAnyOrder(ms: seq<Metrics>, ns: seq<Metrics>)
    requires multiset(ms) == multiset(ns)
    ensures Joined(ms) == Joined(ns)
  {
    MergeInAnyOrder(ms, ns);
    JoinedIsMergeAll(ms);
    JoinedIsMergeAll(ns);
  }

  // ---- The counters as an object -----------------------------------------

  method Resize(s: seq<nat>, n: nat) returns (r: seq<nat>)
    ensures |r| == Max(|s|, n)
    ensures forall i :: 0 <= i < |r| ==> r[i] == At(s, i)
  {
    r := s;
    while |r| < n
      invariant |s| <= |r| <= Max(|s|, n)
      invariant forall i :: 0 <= i < |r| ==> r[i] == At(s, i)
    {
      r := r + [0];
    }
  }

  method RecordInSeries(s: seq<nat>, second: nat) returns (r: seq<nat>)
    ensures r == RecordSeries(s, second)
  {
    r := Resize(s, second + 1);
    r := r[second := r[second] + 1];
  }

  method MergeIntoSeries(into: seq<nat>, other: seq<nat>) returns (r: seq<nat>)
    ensures r == MergeSeries(into, other)
  {
    r := Resize(into, |other|);
    for second := 0 to |other|
      invariant |r| == Max(|into|, |other|)
      invariant forall i :: 0 <= i < |r| ==> r[i] == At(into, i) + if i < second then other[i] else 0
    {
      r := r[second := r[second] + other[second]];
    }
  }

  lemma MergeOneCount<K>(into: map<K, nat>, part: map<K, nat>, k: K, count: nat)
    requires k !in part
    ensures MergeCounts(into, part[k := count]) == MergeCounts(into, part)[k := Get(MergeCounts(into, part), k) + count]
  {
    var left, right := MergeCounts(into, part[k := count]), MergeCounts(into, part)[k := Get(MergeCounts(into, part), k) + count];
    assert left.Keys == right.Keys;
    forall x | x in left.Keys ensures left[x] == right[x] {
      if x != k { assert Get(part[k := count], x) == Get(part, x); }
    }
  }

  method MergeIntoCounts<K(==)>(into: map<K, nat>, other: map<K, nat>) returns (r: map<K, nat>)
    ensures r == MergeCounts(into, other)
  {
    r := into;
    var todo := other.Keys;
    ghost var part: map<K, nat> := map[];
    while todo != {}
      invariant todo <= other.Keys && part.Keys == other.Keys - todo
      invariant forall k :: k in part ==> part[k] == other[k]
      invariant r == MergeCounts(into, part)
      decreases |todo|
    {
      var k :| k in todo;
      MergeOneCount(into, part, k, other[k]);
      r := r[k := Get(r, k) + other[k]];
      part := part[k := other[k]];
      todo := todo - {k};
    }
    assert part == other;
  }

  class LocalMetrics {
    var m: Metrics

    constructor ()
      ensures m == Empty() && Balanced(m) && Accounted(m)
    {
      m := Empty();
    }

    /** The status, outcome and payment counters of one answer. */
    method RecordAnswered(c: Completion)
      modifies this
      ensures m == RecordAnswer(old(m), c)
    {
      if c.status.Some? {
        m := m.(status := Bump(m.status, c.status.value));
        if 200 <= c.status.value < 300 {
          m := m.(ok := m.ok + 1);
          if c.logicalPayment {
            var series := RecordInSeries(m.acceptedRps, c.second);
            m := m.(accepted := m.accepted + 1, acceptedRps := series);
          }
        } else {
          m := m.(fail := m.fail + 1);
        }
      } else {
        m := m.(fail := m.fail + 1);
      }
    }

    method RecordCompletion(c: Completion)
      modifies this
      ensures m == Record(old(m), c)
    {
      if c.dispatched {
        m := m.(dispatched := m.dispatched + 1);
      } else {
        m := m.(dropped := m.dropped + 1);
      }
      RecordAnswered(c);
      if c.error.Some? {
        m := m.(errors := Bump(m.errors, c.error.value));
      }
      var series := RecordInSeries(m.rps, c.second);
      m := m.(completed := m.completed + 1, rps := series);
    }

    /** The closed loop's record: every request counts as dispatched, one that could not be signed included. */
    method RecordSimple(c: Completion)
      modifies this
      ensures m == Record(old(m), c.(dispatched := true))
      ensures m.dispatched == old(m.dispatched) + 1 && m.completed == old(m.completed) + 1
      ensures m.scheduled == old(m.scheduled) && m.dropped == old(m.dropped)
    {
      m := m.(dispatched := m.dispatched + 1);
      RecordAnswered(c);
      if c.error.Some? {
        m := m.(errors := Bump(m.errors, c.error.value));
      }
      var series := RecordInSeries(m.rps, c.second);
      m := m.(completed := m.completed + 1, rps := series);
    }

    method MergeWith(other: LocalMetrics)
      requires other != this
      modifies this
      ensures m == Merge(old(m), other.m)
    {
      m := m.(scheduled := m.scheduled + other.m.scheduled,
              dispatched := m.dispatched + other.m.dispatched,
              completed := m.completed + other.m.completed,
              accepted := m.accepted + other.m.accepted,
              ok := m.ok + other.m.ok,
              fail := m.fail + other.m.fail,
              dropped := m.dropped + other.m.dropped,
              maxInFlight := m.maxInFlight + other.m.maxInFlight);
      var status := MergeIntoCounts(m.status, other.m.status);
      var errors := MergeIntoCounts(m.errors, other.m.errors);
      var rps := MergeIntoSeries(m.rps, other.m.rps);
      var acceptedRps := MergeIntoSeries(m.acceptedRps, other.m.acceptedRps);
      m := m.(status := status, errors := errors, rps := rps, acceptedRps := acceptedRps);
    }
  }
}
