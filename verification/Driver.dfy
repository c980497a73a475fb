/**
 The open-loop scheduler of one worker (`run_worker` in rust/bench/src/driver.rs).
 Times are nanoseconds; a script supplies the clock readings and the order in
 which requests complete.
 */
module Driver {
  import opened Common
  import opened DriverMetrics
  import opened RoundRobin

  /** `first[i]` is the first tick of source i. */
  datatype Plan = Plan(first: seq<nat>, period: nat, deadline: nat, cap: nat)

  datatype Tick = Tick(time: nat, slot: nat)
  datatype Flight = Flight(slot: nat, next: nat)

  /**
   `slots`, `heap` and `flight` are the worker's own state. `pops`, `nexts` and
   `late` are history: ticks taken per source, the tick each source is due next,
   and the source, if any, whose tick was taken at or after the deadline.
   */
  datatype Worker = Worker(
    slots: seq<Option<nat>>,
    heap: seq<Tick>,
    flight: seq<Flight>,
    clock: nat,
    draining: bool,
    panicked: bool,
    m: Metrics,
    pops: seq<nat>,
    nexts: seq<nat>,
    late: Option<nat>)

  /**
   `Dispatch` carries the two clock readings of lines 694 and 698; `Complete` the
   place of the request that finished; `Deadline` the reading that ends the loop.
   */
  datatype Event =
    | Dispatch(now1: nat, now2: nat)
    | Complete(k: nat, c: Completion)
    | Deadline(now: nat)

  function Start(p: Plan): Worker {
    Worker(
      seq(|p.first|, i requires 0 <= i < |p.first| => Some(p.first[i])),
      seq(|p.first|, i requires 0 <= i < |p.first| => Tick(p.first[i], i)),
      [], 0, false, false, Empty(),
      seq(|p.first|, i => 0), p.first, None)
  }

  // ---- The schedule heap -------------------------------------------------

  predicate Before(a: Tick, b: Tick) {
    a.time < b.time || (a.time == b.time && a.slot < b.slot)
  }

  function MinIndex(h: seq<Tick>): (i: nat)
    requires h != []
    ensures i < |h|
    ensures forall j :: 0 <= j < |h| ==> !Before(h[j], h[i])
  {
    if |h| == 1 then 0
    else
      var best := MinIndex(h[..|h| - 1]);
      assert forall j :: 0 <= j < |h| - 1 ==> h[j] == h[..|h| - 1][j];
      if Before(h[|h| - 1], h[best]) then |h| - 1 else best
  }

  method Peek(h: seq<Tick>) returns (best: nat)
    requires h != []
    ensures best == MinIndex(h)
  {
    best := 0;
    for i := 1 to |h|
      invariant best == MinIndex(h[..i])
    {
      assert h[..i + 1][..i] == h[..i];
      if Before(h[i], h[best]) {
        best := i;
      }
    }
    assert h[..|h|] == h;
  }

  function Drop<T>(s: seq<T>, i: nat): seq<T>
    requires i < |s|
  {
    s[..i] + s[i + 1..]
  }

  // ---- The steps ---------------------------------------------------------

  predicate MayDispatch(p: Plan, w: Worker, now1: nat, now2: nat) {
    && !w.draining && !w.panicked
    && w.clock <= now1 <= now2 && now1 < p.deadline
    && |w.flight| < p.cap && w.heap != []
    && w.heap[MinIndex(w.heap)].time <= now2
  }

  function StepDispatch(p: Plan, w: Worker, now2: nat): Worker
    requires w.heap != []
  {
    var i := MinIndex(w.heap);
    var tick := w.heap[i];
    var slot := tick.slot;
    if slot >= |w.slots| || w.slots[slot].None? || slot >= |w.pops| || slot >= |w.nexts| then
      w.(panicked := true)
    else
      var next := w.slots[slot].value + p.period;
      var flight := w.flight + [Flight(slot, next)];
      w.(slots := w.slots[slot := None],
         heap := Drop(w.heap, i),
         flight := flight,
         clock := now2,
         m := w.m.(scheduled := w.m.scheduled + 1, maxInFlight := Max(w.m.maxInFlight, |flight|)),
         pops := w.pops[slot := w.pops[slot] + 1],
         nexts := w.nexts[slot := next],
         late := if tick.time >= p.deadline then Some(slot) else w.late)
  }

  function StepComplete(w: Worker, k: nat, c: Completion): Worker
    requires k < |w.flight|
  {
    var f := w.flight[k];
    if f.slot >= |w.slots| then w.(panicked := true)
    else
      w.(slots := w.slots[f.slot := Some(f.next)],
         heap := w.heap + [Tick(f.next, f.slot)],
         flight := Drop(w.flight, k),
         m := Record(w.m, c))
  }

  function Step(p: Plan, w: Worker, e: Event): Worker {
    match e
    case Dispatch(now1, now2) => if MayDispatch(p, w, now1, now2) then StepDispatch(p, w, now2) else w
    case Complete(k, c) => if !w.panicked && k < |w.flight| then StepComplete(w, k, c) else w
    case Deadline(now) =>
      if w.clock <= now && p.deadline <= now then w.(clock := now, draining := true) else w
  }

  function Run(p: Plan, script: seq<Event>): Worker {
    if script == [] then Start(p) else Step(p, Run(p, script[..|script| - 1]), script[|script| - 1])
  }

  // ---- Ticks, counted one by one and in closed form ----------------------

  function Ticks(p: Plan, t: nat): nat
    requires p.period > 0
    decreases p.deadline - t
  {
    if t >= p.deadline then 0 else 1 + Ticks(p, t + p.period)
  }

  function DueBefore(p: Plan, next: nat): nat {
    if next >= p.deadline then 0
    else
      var remaining := p.deadline - next;
      var period := Max(p.period, 1);
      Min(1 + (remaining - 1) / period, U64_MAX)
  }

  lemma OneMorePeriod(x: nat, d: nat)
    requires d > 0
    ensures (x + d) / d == x / d + 1
  {
    var q := x / d;
    assert x == q * d + x % d;
    assert (q + 1) * d == q * d + d;
    Quotient(x + d, d, q + 1, x % d);
  }

  /** The closed form counts exactly the ticks before the deadline, up to what a u64 holds. */
  lemma {:induction false} DueCountsTicks(p: Plan, next: nat)
    requires p.period > 0
    ensures DueBefore(p, next) == Min(Ticks(p, next), U64_MAX)
    decreases p.deadline - next
  {
    if next < p.deadline {
      DueCountsTicks(p, next + p.period);
      var x := p.deadline - next - 1;
      if x >= p.period {
        OneMorePeriod(x - p.period, p.period);
      } else {
        Quotient(x, p.period, 0, x);
      }
    }
  }

  // ---- What every step keeps ---------------------------------------------

  predicate SlotsSized(p: Plan, w: Worker) {
    |w.slots| == |w.pops| == |w.nexts| == |p.first|
  }

  predicate SlotsEntries(w: Worker) {
    && |w.slots| == |w.nexts|
    && (forall j :: 0 <= j < |w.heap| ==>
          w.heap[j].slot < |w.slots| && w.slots[w.heap[j].slot] == Some(w.heap[j].time))
    && (forall j :: 0 <= j < |w.flight| ==>
          && w.flight[j].slot < |w.slots| && w.slots[w.flight[j].slot].None?
          && w.flight[j].next == w.nexts[w.flight[j].slot])
  }

  predicate SlotsUnique(w: Worker) {
    && (forall i, j :: 0 <= i < j < |w.heap| ==> w.heap[i].slot != w.heap[j].slot)
    && (forall i, j :: 0 <= i < j < |w.flight| ==> w.flight[i].slot != w.flight[j].slot)
  }

  predicate SlotsCovered(w: Worker) {
    && |w.slots| == |w.nexts|
    && (forall i :: 0 <= i < |w.slots| && w.slots[i].Some? ==>
          w.slots[i].value == w.nexts[i] && Tick(w.nexts[i], i) in w.heap)
    && (forall i :: 0 <= i < |w.slots| && w.slots[i].None? ==> Flight(i, w.nexts[i]) in w.flight)
  }

  /** An idle source has its one heap entry; a busy one its one request in flight, and nothing else. */
  predicate SlotsOk(p: Plan, w: Worker) {
    SlotsSized(p, w) && SlotsEntries(w) && SlotsUnique(w) && SlotsCovered(w)
  }

  function LateBy(w: Worker, i: nat): nat {
    if w.late == Some(i) then 1 else 0
  }

  /** Ticks taken and ticks still due add up to the ticks the plan has. */
  ghost predicate TicksOk(p: Plan, w: Worker)
    requires p.period > 0
  {
    && |w.pops| == |w.nexts| == |p.first|
    && (forall i :: 0 <= i < |p.first| ==>
          w.pops[i] + Ticks(p, w.nexts[i]) == Ticks(p, p.first[i]) + LateBy(w, i))
    && (w.late.Some? ==> w.clock >= p.deadline && w.late.value < |p.first| && w.nexts[w.late.value] >= p.deadline)
  }

  ghost predicate CountsOk(p: Plan, w: Worker) {
    && Balanced(w.m)
    && w.m.scheduled == Sum(w.pops) == w.m.completed + |w.flight|
    && w.m.completed == w.m.dispatched + w.m.dropped
    && |w.flight| <= p.cap && w.m.maxInFlight <= p.cap
  }

  ghost predicate Inv(p: Plan, w: Worker)
    requires p.period > 0
  {
    !w.panicked && SlotsOk(p, w) && TicksOk(p, w) && CountsOk(p, w)
  }

  lemma {:induction false} SumBump(s: seq<nat>, i: nat, n: nat)
    requires i < |s| && n <= |s|
    ensures SumTo(s[i := s[i] + 1], n) == SumTo(s, n) + if i < n then 1 else 0
  {
    if n > 0 { SumBump(s, i, n - 1); }
  }

  lemma DropKeeps<T>(s: seq<T>, i: nat)
    requires i < |s|
    ensures |Drop(s, i)| == |s| - 1
    ensures forall j :: 0 <= j < |s| - 1 ==> Drop(s, i)[j] == if j < i then s[j] else s[j + 1]
    ensures forall x :: x in s ==> x == s[i] || x in Drop(s, i)
  {
    forall x | x in s && x != s[i] ensures x in Drop(s, i) {
      var j :| 0 <= j < |s| && s[j] == x;
      assert x == if j < i then Drop(s, i)[j] else Drop(s, i)[j - 1];
    }
  }

  lemma DispatchReady(p: Plan, w: Worker)
    requires SlotsOk(p, w) && w.heap != []
    ensures var tick := w.heap[MinIndex(w.heap)];
            tick.slot < |w.slots| && w.slots[tick.slot] == Some(tick.time) && tick.time == w.nexts[tick.slot]
  {
    var tick := w.heap[MinIndex(w.heap)];
    assert w.slots[tick.slot] == Some(tick.time);
  }

  lemma DispatchUnique(p: Plan, w: Worker, now2: nat)
    requires SlotsOk(p, w) && w.heap != []
    ensures var t := StepDispatch(p, w, now2);
            !t.panicked || w.panicked
    ensures var t := StepDispatch(p, w, now2); SlotsUnique(t) && SlotsSized(p, t)
  {
    var i := MinIndex(w.heap);
    DispatchReady(p, w);
    DropKeeps(w.heap, i);
  }

  lemma DispatchHeapEntry(p: Plan, w: Worker, now2: nat, j: nat)
    requires SlotsOk(p, w) && w.heap != [] && j < |w.heap| - 1
    ensures var t := StepDispatch(p, w, now2);
            && |t.heap| == |w.heap| - 1
            && t.heap[j].slot < |t.slots| && t.slots[t.heap[j].slot] == Some(t.heap[j].time)
  {
    var i := MinIndex(w.heap);
    DispatchReady(p, w);
    DropKeeps(w.heap, i);
    var k := if j < i then j else j + 1;
    assert w.heap[k].slot != w.heap[i].slot;
    assert w.slots[w.heap[k].slot] == Some(w.heap[k].time);
  }

  lemma DispatchFlightEntry(p: Plan, w: Worker, now2: nat, j: nat)
    requires SlotsOk(p, w) && w.heap != [] && j <= |w.flight|
    ensures var t := StepDispatch(p, w, now2);
            && |t.flight| == |w.flight| + 1 && |t.slots| == |t.nexts|
            && t.flight[j].slot < |t.slots| && t.slots[t.flight[j].slot].None?
            && t.flight[j].next == t.nexts[t.flight[j].slot]
  {
    DispatchReady(p, w);
    if j < |w.flight| {
      assert w.slots[w.flight[j].slot].None?;
    }
  }

  lemma DispatchEntries(p: Plan, w: Worker, now2: nat)
    requires SlotsOk(p, w) && w.heap != []
    ensures SlotsEntries(StepDispatch(p, w, now2))
  {
    var t := StepDispatch(p, w, now2);
    DispatchReady(p, w);
    DropKeeps(w.heap, MinIndex(w.heap));
    forall j | 0 <= j < |t.heap|
      ensures t.heap[j].slot < |t.slots| && t.slots[t.heap[j].slot] == Some(t.heap[j].time)
    {
      DispatchHeapEntry(p, w, now2, j);
    }
    forall j | 0 <= j < |t.flight|
      ensures && t.flight[j].slot < |t.slots| && t.slots[t.flight[j].slot].None?
              && t.flight[j].next == t.nexts[t.flight[j].slot]
    {
      DispatchFlightEntry(p, w, now2, j);
    }
  }

  lemma DispatchCovered(p: Plan, w: Worker, now2: nat)
    requires SlotsOk(p, w) && w.heap != []
    ensures SlotsCovered(StepDispatch(p, w, now2))
  {
    var i := MinIndex(w.heap);
    var slot := w.heap[i].slot;
    var t := StepDispatch(p, w, now2);
    DispatchReady(p, w);
    DropKeeps(w.heap, i);
    forall s | 0 <= s < |t.slots| && t.slots[s].Some?
      ensures t.slots[s].value == t.nexts[s] && Tick(t.nexts[s], s) in t.heap
    {
      assert s != slot && w.slots[s].Some?;
    }
    forall s | 0 <= s < |t.slots| && t.slots[s].None? ensures Flight(s, t.nexts[s]) in t.flight {
      if s == slot {
        assert t.flight[|w.flight|] == Flight(slot, t.nexts[slot]);
      } else {
        assert Flight(s, w.nexts[s]) in w.flight;
      }
    }
  }

  lemma DispatchSlots(p: Plan, w: Worker, now2: nat)
    requires SlotsOk(p, w) && w.heap != [] && !w.panicked
    ensures var t := StepDispatch(p, w, now2); SlotsOk(p, t) && !t.panicked
  {
    DispatchUnique(p, w, now2);
    DispatchEntries(p, w, now2);
    DispatchCovered(p, w, now2);
  }

  lemma CompleteEntries(p: Plan, w: Worker, k: nat, c: Completion)
    requires SlotsOk(p, w) && k < |w.flight|
    ensures var t := StepComplete(w, k, c); SlotsSized(p, t) && SlotsEntries(t)
  {
    DropKeeps(w.flight, k);
  }

  lemma CompleteUnique(p: Plan, w: Worker, k: nat, c: Completion)
    requires SlotsOk(p, w) && k < |w.flight|
    ensures SlotsUnique(StepComplete(w, k, c))
  {
    DropKeeps(w.flight, k);
  }

  lemma CompleteCovered(p: Plan, w: Worker, k: nat, c: Completion)
    requires SlotsOk(p, w) && k < |w.flight|
    ensures SlotsCovered(StepComplete(w, k, c))
  {
    var f := w.flight[k];
    var t := StepComplete(w, k, c);
    DropKeeps(w.flight, k);
    forall s | 0 <= s < |t.slots| && t.slots[s].Some?
      ensures t.slots[s].value == t.nexts[s] && Tick(t.nexts[s], s) in t.heap
    {
      if s == f.slot {
        assert t.heap[|w.heap|] == Tick(f.next, f.slot);
      } else {
        assert Tick(w.nexts[s], s) in w.heap;
      }
    }
    forall s | 0 <= s < |t.slots| && t.slots[s].None? ensures Flight(s, t.nexts[s]) in t.flight {
      assert s != f.slot && Flight(s, w.nexts[s]) in w.flight;
    }
  }

  lemma CompleteSlots(p: Plan, w: Worker, k: nat, c: Completion)
    requires SlotsOk(p, w) && !w.panicked && k < |w.flight|
    ensures var t := StepComplete(w, k, c); SlotsOk(p, t) && !t.panicked
  {
    CompleteEntries(p, w, k, c);
    CompleteUnique(p, w, k, c);
    CompleteCovered(p, w, k, c);
  }

  lemma DispatchTicks(p: Plan, w: Worker, now1: nat, now2: nat)
    requires p.period > 0 && SlotsOk(p, w) && TicksOk(p, w) && MayDispatch(p, w, now1, now2)
    ensures TicksOk(p, StepDispatch(p, w, now2))
  {
    DispatchReady(p, w);
    assert w.late.None?;
  }

  lemma DispatchCounts(p: Plan, w: Worker, now1: nat, now2: nat)
    requires SlotsOk(p, w) && CountsOk(p, w) && MayDispatch(p, w, now1, now2)
    ensures CountsOk(p, StepDispatch(p, w, now2))
  {
    DispatchReady(p, w);
    SumBump(w.pops, w.heap[MinIndex(w.heap)].slot, |w.pops|);
  }

  lemma CompleteCounts(p: Plan, w: Worker, k: nat, c: Completion)
    requires SlotsOk(p, w) && CountsOk(p, w) && k < |w.flight|
    ensures CountsOk(p, StepComplete(w, k, c))
  {
    RecordBalances(w.m, c);
    DropKeeps(w.flight, k);
  }

  lemma KeepInv(p: Plan, w: Worker, e: Event)
    requires p.period > 0 && Inv(p, w)
    ensures Inv(p, Step(p, w, e))
  {
    match e
    case Dispatch(now1, now2) =>
      if MayDispatch(p, w, now1, now2) {
        DispatchSlots(p, w, now2);
        DispatchTicks(p, w, now1, now2);
        DispatchCounts(p, w, now1, now2);
      }
    case Complete(k, c) =>
      if k < |w.flight| {
        CompleteSlots(p, w, k, c);
        CompleteCounts(p, w, k, c);
      }
    case Deadline(_) =>
  }

  lemma {:induction false} SumZero(n: nat, k: nat)
    requires k <= n
    ensures SumTo(seq(n, i => 0), k) == 0
  {
    if k > 0 { SumZero(n, k - 1); }
  }

  lemma {:induction false} EveryScript(p: Plan, script: seq<Event>)
    requires p.period > 0
    ensures Inv(p, Run(p, script))
  {
    if script == [] {
      var w := Start(p);
      SumZero(|p.first|, |p.first|);
      assert forall i :: 0 <= i < |p.first| ==> w.heap[i] == Tick(p.first[i], i);
    } else {
      EveryScript(p, script[..|script| - 1]);
      KeepInv(p, Run(p, script[..|script| - 1]), script[|script| - 1]);
    }
  }

  /**
   At every point of every run a source is idle with exactly one heap entry, or
   has exactly one request in flight and no heap entry; the ready-slot
   expectation never fails, and neither cap is ever exceeded.
   */
  lemma OneRequestPerSource(p: Plan, script: seq<Event>, i: nat)
    requires p.period > 0 && i < |p.first|
    ensures var w := Run(p, script);
            && !w.panicked && |w.flight| <= p.cap && w.m.maxInFlight <= p.cap
            && |w.slots| == |p.first|
            && (if w.slots[i].Some? then
                  && (exists j :: 0 <= j < |w.heap| && w.heap[j] == Tick(w.slots[i].value, i))
                  && (forall j, k :: 0 <= j < |w.heap| && 0 <= k < |w.heap| && w.heap[j].slot == w.heap[k].slot == i ==> j == k)
                  && (forall k :: 0 <= k < |w.flight| ==> w.flight[k].slot != i)
                else
                  && (exists j :: 0 <= j < |w.flight| && w.flight[j].slot == i)
                  && (forall j, k :: 0 <= j < |w.flight| && 0 <= k < |w.flight| && w.flight[j].slot == w.flight[k].slot == i ==> j == k)
                  && (forall k :: 0 <= k < |w.heap| ==> w.heap[k].slot != i))
  {
    EveryScript(p, script);
    var w := Run(p, script);
    if w.slots[i].Some? {
      assert Tick(w.nexts[i], i) in w.heap;
    } else {
      assert Flight(i, w.nexts[i]) in w.flight;
    }
  }

  // ---- Worker exit -------------------------------------------------------

  function SatAdd(a: nat, b: nat): nat {
    Min(a + b, U64_MAX)
  }

  /** Adds the ticks that were due but never taken, source by source. */
  function Deficits(p: Plan, slots: seq<Option<nat>>, m: Metrics): Metrics {
    if slots == [] then m
    else
      var before := Deficits(p, slots[..|slots| - 1], m);
      match slots[|slots| - 1]
      case None => before
      case Some(next) =>
        before.(scheduled := SatAdd(before.scheduled, DueBefore(p, next)),
                dropped := SatAdd(before.dropped, DueBefore(p, next)))
  }

  function TotalTicks(p: Plan, ts: seq<nat>): nat
    requires p.period > 0
  {
    if ts == [] then 0 else TotalTicks(p, ts[..|ts| - 1]) + Ticks(p, ts[|ts| - 1])
  }

  lemma {:induction false} DeficitsAdd(p: Plan, slots: seq<Option<nat>>, ts: seq<nat>, m: Metrics)
    requires p.period > 0 && |slots| == |ts| && forall i :: 0 <= i < |ts| ==> slots[i] == Some(ts[i])
    ensures var r := Deficits(p, slots, m);
            && r == m.(scheduled := r.scheduled, dropped := r.dropped)
            && (slots != [] || m.scheduled <= U64_MAX ==> r.scheduled == SatAdd(m.scheduled, TotalTicks(p, ts)))
            && (slots != [] || m.dropped <= U64_MAX ==> r.dropped == SatAdd(m.dropped, TotalTicks(p, ts)))
  {
    if slots != [] {
      var n := |slots| - 1;
      DeficitsAdd(p, slots[..n], ts[..n], m);
      DueCountsTicks(p, ts[n]);
    }
  }

  lemma {:induction false} TicksBalance(p: Plan, w: Worker, n: nat)
    requires p.period > 0 && TicksOk(p, w) && n <= |p.first|
    ensures SumTo(w.pops, n) + TotalTicks(p, w.nexts[..n]) ==
            TotalTicks(p, p.first[..n]) + if w.late.Some? && w.late.value < n then 1 else 0
  {
    if n > 0 {
      TicksBalance(p, w, n - 1);
      assert w.nexts[..n][..n - 1] == w.nexts[..n - 1] && p.first[..n][..n - 1] == p.first[..n - 1];
    }
  }

  /** The deficit makes each source whole: taken plus due is what the plan had, or one tick more. */
  lemma SourceMadeWhole(p: Plan, script: seq<Event>, i: nat)
    requires p.period > 0 && i < |p.first|
    ensures var w := Run(p, script);
            && |w.pops| == |w.nexts| == |p.first|
            && w.pops[i] <= Ticks(p, p.first[i]) + 1
            && w.pops[i] + Ticks(p, w.nexts[i]) == Max(w.pops[i], Ticks(p, p.first[i]))
            && (Ticks(p, w.nexts[i]) <= U64_MAX ==>
                  w.pops[i] + DueBefore(p, w.nexts[i]) == Max(w.pops[i], Ticks(p, p.first[i])))
  {
    EveryScript(p, script);
    var w := Run(p, script);
    DueCountsTicks(p, w.nexts[i]);
  }

  lemma ExitCounts(p: Plan, w: Worker)
    requires p.period > 0 && Inv(p, w) && w.flight == []
    ensures var m := Deficits(p, w.slots, w.m);
            var due := TotalTicks(p, w.nexts);
            && m == w.m.(scheduled := SatAdd(w.m.scheduled, due), dropped := SatAdd(w.m.dropped, due))
            && w.m.scheduled + due == TotalTicks(p, p.first) + if w.late.Some? then 1 else 0
  {
    TicksBalance(p, w, |p.first|);
    assert w.nexts[..|p.first|] == w.nexts && p.first[..|p.first|] == p.first;
    if |p.first| == 0 { assert Sum(w.pops) == 0; }
    DeficitsAdd(p, w.slots, w.nexts, w.m);
  }

  // ---- What the script decides -------------------------------------------

  /**
   The step takes a tick at or after the deadline: the deadline had not passed on
   the first clock reading, and the earliest tick was due on the second.
   */
  predicate TakesLate(p: Plan, w: Worker, e: Event) {
    && e.Dispatch? && MayDispatch(p, w, e.now1, e.now2)
    && e.now1 < p.deadline <= w.heap[MinIndex(w.heap)].time <= e.now2
  }

  predicate LateTaken(p: Plan, script: seq<Event>) {
    script != [] &&
    (LateTaken(p, script[..|script| - 1]) || TakesLate(p, Run(p, script[..|script| - 1]), script[|script| - 1]))
  }

  /** The request of a completion in the script had been sent. */
  predicate ReportsSent(w: Worker, e: Event) {
    e.Complete? && !w.panicked && e.k < |w.flight| && e.c.dispatched
  }

  function SentCount(p: Plan, script: seq<Event>): nat {
    if script == [] then 0
    else
      var front, e := script[..|script| - 1], script[|script| - 1];
      SentCount(p, front) + if ReportsSent(Run(p, front), e) then 1 else 0
  }

  lemma LateStep(p: Plan, w: Worker, e: Event)
    requires p.period > 0 && Inv(p, w)
    ensures Step(p, w, e).late.Some? <==> w.late.Some? || TakesLate(p, w, e)
  {
    if e.Dispatch? && MayDispatch(p, w, e.now1, e.now2) { DispatchReady(p, w); }
    if e.Complete? && e.k < |w.flight| { assert w.flight[e.k].slot < |w.slots|; }
  }

  /** The worker's history flag says exactly whether the script took a late tick. */
  lemma {:induction false} LateMeansTaken(p: Plan, script: seq<Event>)
    requires p.period > 0
    ensures Run(p, script).late.Some? <==> LateTaken(p, script)
  {
    if script != [] {
      LateMeansTaken(p, script[..|script| - 1]);
      EveryScript(p, script[..|script| - 1]);
      LateStep(p, Run(p, script[..|script| - 1]), script[|script| - 1]);
    }
  }

  lemma SentStep(p: Plan, w: Worker, e: Event)
    requires p.period > 0 && Inv(p, w)
    ensures Step(p, w, e).m.dispatched == w.m.dispatched + if ReportsSent(w, e) then 1 else 0
  {
    if e.Dispatch? && MayDispatch(p, w, e.now1, e.now2) { DispatchReady(p, w); }
    if e.Complete? && e.k < |w.flight| { assert w.flight[e.k].slot < |w.slots|; }
  }

  lemma {:induction false} SentIsDispatched(p: Plan, script: seq<Event>)
    requires p.period > 0
    ensures Run(p, script).m.dispatched == SentCount(p, script)
  {
    if script != [] {
      SentIsDispatched(p, script[..|script| - 1]);
      EveryScript(p, script[..|script| - 1]);
      SentStep(p, Run(p, script[..|script| - 1]), script[|script| - 1]);
    }
  }

  lemma SaturationSplits(s: nat, d: nat, x: nat)
    requires s == d + x
    ensures Min(s, U64_MAX) == d + Min(x, U64_MAX) <==> s <= U64_MAX || d == 0
    ensures Min(s, U64_MAX) <= d + Min(x, U64_MAX)
  {
  }

  /** The metrics a worker returns. */
  function Result(p: Plan, w: Worker): Metrics {
    Deficits(p, w.slots, w.m)
  }

  /** The ticks the plan had before the deadline, and the late one if the script took it. */
  function Planned(p: Plan, script: seq<Event>): nat
    requires p.period > 0
  {
    TotalTicks(p, p.first) + if LateTaken(p, script) then 1 else 0
  }

  /**
   When the worker exits, `scheduled` is the number of ticks the plan had before
   the deadline, whatever happened during the run, plus the one late tick if the
   script took it; and `scheduled` is `dispatched` plus `dropped` exactly when that
   number fits a u64 or no request was ever sent.
   */
  lemma WorkerAccounts(p: Plan, script: seq<Event>)
    requires p.period > 0 && Run(p, script).flight == []
    ensures var m := Result(p, Run(p, script));
            && Balanced(m)
            && m.maxInFlight <= p.cap
            && m.dispatched == SentCount(p, script)
            && m.scheduled == Min(Planned(p, script), U64_MAX) <= m.dispatched + m.dropped
            && (Accounted(m) <==> Planned(p, script) <= U64_MAX || SentCount(p, script) == 0)
  {
    EveryScript(p, script);
    LateMeansTaken(p, script);
    SentIsDispatched(p, script);
    var w := Run(p, script);
    ExitCounts(p, w);
    SaturationSplits(Planned(p, script), w.m.dispatched, w.m.dropped + TotalTicks(p, w.nexts));
  }

  /** A late tick: nothing was planned before the deadline, and yet one request is scheduled. */
  lemma LateTickIsTaken(c: Completion)
    ensures var p := Plan([5], 10, 5, 1);
            var script := [Dispatch(4, 5), Complete(0, c), Deadline(5)];
            && LateTaken(p, script) && Run(p, script).flight == []
            && TotalTicks(p, p.first) == 0 && Result(p, Run(p, script)).scheduled == 1
  {
    var p := Plan([5], 10, 5, 1);
    var w0, w1 := Start(p), Step(p, Start(p), Dispatch(4, 5));
    assert w0.heap == [Tick(5, 0)] && MayDispatch(p, w0, 4, 5);
    assert w1.flight == [Flight(0, 15)];
    var one, two, three := [Dispatch(4, 5)], [Dispatch(4, 5), Complete(0, c)], [Dispatch(4, 5), Complete(0, c), Deadline(5)];
    assert one[..0] == [] && two[..1] == one && three[..2] == two;
    assert Run(p, one) == w1;
    assert LateTaken(p, one);
    assert Run(p, three).flight == Drop([Flight(0, 15)], 0) == [];
    assert [5][..0] == [];
    WorkerAccounts(p, three);
  }

  lemma {:induction false} TicksOneByOne(p: Plan, t: nat)
    requires p.period == 1 && t <= p.deadline
    ensures Ticks(p, t) == p.deadline - t
    decreases p.deadline - t
  {
    if t < p.deadline { TicksOneByOne(p, t + 1); }
  }

  /** A saturated run: more ticks were due than a u64 counts, and one request was sent. */
  lemma SaturatedRun(c: Completion)
    requires c.dispatched
    ensures var p := Plan([0], 1, U64_MAX + 2, 1);
            var script := [Dispatch(0, 0), Complete(0, c), Deadline(U64_MAX + 2)];
            Run(p, script).flight == [] && !Accounted(Result(p, Run(p, script)))
  {
    var p := Plan([0], 1, U64_MAX + 2, 1);
    var w0, w1 := Start(p), Step(p, Start(p), Dispatch(0, 0));
    assert w0.heap == [Tick(0, 0)] && MayDispatch(p, w0, 0, 0);
    assert w1.flight == [Flight(0, 1)];
    var end := Deadline(U64_MAX + 2);
    var one, two, three := [Dispatch(0, 0)], [Dispatch(0, 0), Complete(0, c)], [Dispatch(0, 0), Complete(0, c), end];
    assert one[..0] == [] && two[..1] == one && three[..2] == two;
    assert Run(p, one) == w1;
    assert ReportsSent(w1, two[1]) && SentCount(p, two) >= 1;
    assert Run(p, three).flight == Drop([Flight(0, 1)], 0) == [];
    assert [0][..0] == [];
    TicksOneByOne(p, 0);
    WorkerAccounts(p, three);
  }

  // ---- The worker as it runs ---------------------------------------------

  /** One pass of the loops, on the next clock reading or completion. */
  method Advance(p: Plan, w: Worker, e: Event) returns (t: Worker)
    requires SlotsOk(p, w) && !w.panicked
    ensures t == Step(p, w, e)
  {
    t := w;
    match e {
      case Dispatch(now1, now2) =>
        if !w.draining && w.clock <= now1 <= now2 && now1 < p.deadline && |w.flight| < p.cap && w.heap != [] {
          var i := Peek(w.heap);
          var tick := w.heap[i];
          if tick.time <= now2 {
            DispatchReady(p, w);
            var next := w.slots[tick.slot].value + p.period;
            var flight := w.flight + [Flight(tick.slot, next)];
            t := w.(slots := w.slots[tick.slot := None], heap := w.heap[..i] + w.heap[i + 1..], flight := flight);
            t := t.(m := t.m.(scheduled := t.m.scheduled + 1, maxInFlight := Max(t.m.maxInFlight, |flight|)));
            t := t.(clock := now2, pops := t.pops[tick.slot := t.pops[tick.slot] + 1],
                    nexts := t.nexts[tick.slot := next],
                    late := if tick.time >= p.deadline then Some(tick.slot) else t.late);
          }
        }
      case Complete(k, c) =>
        if k < |w.flight| {
          var f := w.flight[k];
          t := w.(m := Record(w.m, c), slots := w.slots[f.slot := Some(f.next)]);
          t := t.(heap := t.heap + [Tick(f.next, f.slot)], flight := t.flight[..k] + t.flight[k + 1..]);
        }
      case Deadline(now) =>
        if w.clock <= now && p.deadline <= now {
          t := w.(clock := now, draining := true);
        }
    }
  }

  method AddDeficits(p: Plan, slots: seq<Option<nat>>, before: Metrics) returns (m: Metrics)
    ensures m == Deficits(p, slots, before)
  {
    m := before;
    assert slots[..0] == [];
    for i := 0 to |slots|
      invariant m == Deficits(p, slots[..i], before)
    {
      assert slots[..i + 1][..i] == slots[..i];
      if slots[i].Some? {
        var due := DueBefore(p, slots[i].value);
        m := m.(scheduled := SatAdd(m.scheduled, due), dropped := SatAdd(m.dropped, due));
      }
    }
    assert slots[..|slots|] == slots;
  }

  /**
   The worker driven by a script of clock readings and completions. It returns its
   metrics, or `None` if the script ended with requests still in flight.
   */
  method RunWorker(p: Plan, script: seq<Event>) returns (r: Option<Metrics>)
    requires p.period > 0
    ensures r == if Run(p, script).flight == [] then Some(Result(p, Run(p, script))) else None
  {
    var w := Start(p);
    assert script[..0] == [];
    for n := 0 to |script|
      invariant w == Run(p, script[..n])
    {
      assert script[..n + 1][..n] == script[..n];
      EveryScript(p, script[..n]);
      w := Advance(p, w, script[n]);
    }
    assert script[..|script|] == script;
    if w.flight != [] {
      return None;
    }
    var m := AddDeficits(p, w.slots, w.m);
    r := Some(m);
  }
}
