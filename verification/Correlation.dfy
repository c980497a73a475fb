/**
 Correlating HTTP exchanges into payment flows (`FlowCorrelation` in
 web-ui/api/correlation.ts), from the point where an exchange has been classified.
 Times are milliseconds.
 */
module Correlation {
  import opened Common

  const MAX_FLOWS: nat := 200
  const FLOW_TIMEOUT_MS: int := 60000
  const FACILITATOR_WINDOW_MS: int := 5000

  datatype Protocol = Mpp | X402 | Session

  datatype Status = InProgress | PaymentRequired | PaymentReceived | Delivered | Failed

  datatype StepStatus = Completed | Active | Pending

  /** `events` counts the log lines of the flow. */
  datatype Flow = Flow(
    id: nat, protocol: Protocol, resource: string, clientIp: string, status: Status,
    startedAt: int, updatedAt: int, durationMs: int, steps: seq<StepStatus>, events: nat)

  datatype Entry = Entry(ts: int, path: string, clientIp: string, status: nat, ms: int)

  datatype Input =
    | Challenge(entry: Entry, protocol: Protocol)
    | Retry(entry: Entry, protocol: Protocol)
    | Facilitator(entry: Entry)
    | Cleanup(now: int, stamp: int)

  datatype Message = Created(flow: Flow) | Updated(flow: Flow)

  datatype Book = Book(flows: seq<Flow>, index: map<string, nat>, counter: nat)

  /** What one input does: the new state, the messages sent, and the flow dropped for room, if any. */
  datatype Effect = Effect(book: Book, messages: seq<Message>, evicted: seq<Flow>)

  // ---- Pure helpers ------------------------------------------------------

  function FlowKey(ip: string, path: string): string {
    ip + "::" + path
  }

  function KeyOf(f: Flow): string {
    FlowKey(f.clientIp, f.resource)
  }

  function Completes(s: Status): nat
    requires s != Failed
  {
    match s
    case InProgress => 1
    case PaymentRequired => 2
    case PaymentReceived => 3
    case Delivered => 4
  }

  function UpdateSteps(s: Status, steps: seq<StepStatus>): seq<StepStatus> {
    if s == Failed then
      seq(|steps|, i requires 0 <= i < |steps| => if steps[i] == Active then Pending else steps[i])
    else
      var n := Completes(s);
      seq(|steps|, i requires 0 <= i < |steps| => if i < n then Completed else if i == n then Active else Pending)
  }

  function FirstSteps(): seq<StepStatus> {
    [Completed, Completed, Active, Pending]
  }

  function AllSteps(): seq<StepStatus> {
    [Completed, Completed, Completed, Completed]
  }

  // ---- Finding a flow ----------------------------------------------------

  predicate Waits(f: Flow, path: string) {
    f.resource == path && f.status == PaymentRequired
  }

  /** The last of the first `n` flows waiting for payment on `path`. */
  function LastWaiting(flows: seq<Flow>, path: string, n: nat): (r: Option<nat>)
    requires n <= |flows|
    ensures r.Some? ==> r.value < n && Waits(flows[r.value], path)
    ensures r.Some? ==> forall i :: r.value < i < n ==> !Waits(flows[i], path)
    ensures r.None? ==> forall i :: 0 <= i < n ==> !Waits(flows[i], path)
  {
    if n == 0 then None
    else if Waits(flows[n - 1], path) then Some(n - 1)
    else LastWaiting(flows, path, n - 1)
  }

  function Position(flows: seq<Flow>, id: nat, n: nat): (r: Option<nat>)
    requires n <= |flows|
    ensures r.Some? ==> r.value < n && flows[r.value].id == id
    ensures r.None? ==> forall i :: 0 <= i < n ==> flows[i].id != id
  {
    if n == 0 then None
    else if flows[n - 1].id == id then Some(n - 1)
    else Position(flows, id, n - 1)
  }

  predicate Settling(f: Flow, now: int) {
    && f.protocol == X402 && (f.status == PaymentRequired || f.status == PaymentReceived)
    && now - f.updatedAt < FACILITATOR_WINDOW_MS
  }

  function LastSettling(flows: seq<Flow>, now: int, n: nat): (r: Option<nat>)
    requires n <= |flows|
    ensures r.Some? ==> r.value < n && Settling(flows[r.value], now)
    ensures r.Some? ==> forall i :: r.value < i < n ==> !Settling(flows[i], now)
    ensures r.None? ==> forall i :: 0 <= i < n ==> !Settling(flows[i], now)
  {
    if n == 0 then None
    else if Settling(flows[n - 1], now) then Some(n - 1)
    else LastSettling(flows, now, n - 1)
  }

  /** The flow indexed under the exact key if it is waiting, else the last waiting one on the path. */
  function Target(b: Book, ip: string, path: string): (r: Option<nat>)
    ensures r.Some? ==> r.value < |b.flows| && b.flows[r.value].status == PaymentRequired
  {
    var key := FlowKey(ip, path);
    var hit := if key in b.index then Position(b.flows, b.index[key], |b.flows|) else None;
    if hit.Some? && b.flows[hit.value].status == PaymentRequired then hit
    else LastWaiting(b.flows, path, |b.flows|)
  }

  // ---- The steps ---------------------------------------------------------

  function AddFlow(b: Book, f: Flow): Effect {
    var flows := b.flows + [f];
    if |flows| > MAX_FLOWS then
      Effect(Book(flows[1..], (b.index - {KeyOf(flows[0])})[KeyOf(f) := f.id], f.id), [Created(f)], [flows[0]])
    else
      Effect(Book(flows, b.index[KeyOf(f) := f.id], f.id), [Created(f)], [])
  }

  function Challenged(id: nat, e: Entry, p: Protocol): Flow {
    Flow(id, p, e.path, e.clientIp, PaymentRequired, e.ts, e.ts, 0, FirstSteps(), 2)
  }

  function Standalone(id: nat, e: Entry, p: Protocol): Flow {
    Flow(id, p, e.path, e.clientIp, Delivered, e.ts, e.ts, e.ms, AllSteps(), 1)
  }

  function Retried(f: Flow, e: Entry): Flow {
    if e.ts - f.startedAt > FLOW_TIMEOUT_MS then
      f.(status := Failed, updatedAt := e.ts, steps := UpdateSteps(Failed, f.steps), events := f.events + 1)
    else if 200 <= e.status < 300 then
      f.(status := Delivered, updatedAt := e.ts, durationMs := e.ts - f.startedAt,
         steps := UpdateSteps(Delivered, f.steps), events := f.events + 2)
    else
      f.(status := Failed, updatedAt := e.ts, durationMs := e.ts - f.startedAt,
         steps := UpdateSteps(Failed, f.steps), events := f.events + 1)
  }

  function Noted(f: Flow, ts: int): Flow {
    f.(updatedAt := ts, events := f.events + 1)
  }

  function Replace(b: Book, i: nat, f: Flow): Effect
    requires i < |b.flows|
  {
    Effect(b.(flows := b.flows[i := f]), [Updated(f)], [])
  }

  predicate Stale(f: Flow, now: int) {
    f.status == PaymentRequired && now - f.updatedAt > FLOW_TIMEOUT_MS
  }

  function TimedOut(f: Flow, now: int, stamp: int): Flow {
    f.(status := Failed, updatedAt := stamp, durationMs := now - f.startedAt,
       steps := UpdateSteps(Failed, f.steps), events := f.events + 1)
  }

  /** Cleanup of the first `n` flows. */
  function CleanUp(b: Book, now: int, stamp: int, n: nat): (e: Effect)
    requires n <= |b.flows|
    ensures |e.book.flows| == |b.flows| && e.book.index == b.index && e.book.counter == b.counter && e.evicted == []
    ensures forall i :: n <= i < |b.flows| ==> e.book.flows[i] == b.flows[i]
  {
    if n == 0 then Effect(b, [], [])
    else
      var before := CleanUp(b, now, stamp, n - 1);
      var f := b.flows[n - 1];
      if Stale(f, now) then
        var t := TimedOut(f, now, stamp);
        Effect(before.book.(flows := before.book.flows[n - 1 := t]), before.messages + [Updated(t)], [])
      else before
  }

  function Step(b: Book, input: Input): Effect {
    match input
    case Challenge(e, p) => AddFlow(b, Challenged(b.counter + 1, e, p))
    case Retry(e, p) =>
      (match Target(b, e.clientIp, e.path)
       case None => AddFlow(b, Standalone(b.counter + 1, e, p))
       case Some(i) => Replace(b, i, Retried(b.flows[i], e)))
    case Facilitator(e) =>
      (match LastSettling(b.flows, e.ts, |b.flows|)
       case None => Effect(b, [], [])
       case Some(i) => Replace(b, i, Noted(b.flows[i], e.ts)))
    case Cleanup(now, stamp) => CleanUp(b, now, stamp, |b.flows|)
  }

  function Empty(): Book {
    Book([], map[], 0)
  }

  function Run(inputs: seq<Input>): Book {
    if inputs == [] then Empty() else Step(Run(inputs[..|inputs| - 1]), inputs[|inputs| - 1]).book
  }

  // ---- What every run keeps ----------------------------------------------

  /** Ids grow along the list and never exceed the counter. */
  predicate IdsOk(flows: seq<Flow>, counter: nat) {
    && (forall i :: 0 <= i < |flows| ==> flows[i].id <= counter)
    && (forall i, j :: 0 <= i < j < |flows| ==> flows[i].id < flows[j].id)
  }

  predicate Holds(flows: seq<Flow>, id: nat, key: string) {
    exists i :: 0 <= i < |flows| && flows[i].id == id && KeyOf(flows[i]) == key
  }

  /** The index points only to flows that are still held, each under its own key. */
  predicate IndexOk(flows: seq<Flow>, index: map<string, nat>) {
    forall key :: key in index ==> Holds(flows, index[key], key)
  }

  /** The step diagram is the one of the status. */
  predicate StepsOk(f: Flow) {
    match f.status
    case PaymentRequired => f.steps == [Completed, Completed, Active, Pending]
    case Delivered => f.steps == [Completed, Completed, Completed, Completed]
    case Failed => f.steps == [Completed, Completed, Pending, Pending]
    case _ => false
  }

  predicate FlowsOk(flows: seq<Flow>) {
    |flows| <= MAX_FLOWS && forall i :: 0 <= i < |flows| ==> StepsOk(flows[i])
  }

  predicate Inv(b: Book) {
    IdsOk(b.flows, b.counter) && IndexOk(b.flows, b.index) && FlowsOk(b.flows)
  }

  lemma RetriedSteps(f: Flow, e: Entry)
    requires StepsOk(f) && f.status == PaymentRequired
    ensures StepsOk(Retried(f, e))
    ensures Retried(f, e).status == if e.ts - f.startedAt <= FLOW_TIMEOUT_MS && 200 <= e.status < 300 then Delivered else Failed
  {
    assert UpdateSteps(Delivered, f.steps) == AllSteps();
    assert UpdateSteps(Failed, f.steps) == [Completed, Completed, Pending, Pending];
  }

  lemma TimedOutSteps(f: Flow, now: int, stamp: int)
    requires StepsOk(f) && f.status == PaymentRequired
    ensures StepsOk(TimedOut(f, now, stamp))
  {
    assert UpdateSteps(Failed, f.steps) == [Completed, Completed, Pending, Pending];
  }

  lemma NotedSteps(f: Flow, ts: int)
    ensures StepsOk(Noted(f, ts)) == StepsOk(f) && KeyOf(Noted(f, ts)) == KeyOf(f)
  {
  }

  /** Replacing a flow by a later version of itself keeps what the index needs. */
  lemma KeepReplace(b: Book, i: nat, f: Flow)
    requires Inv(b) && i < |b.flows| && f.id == b.flows[i].id && KeyOf(f) == KeyOf(b.flows[i]) && StepsOk(f)
    ensures Inv(b.(flows := b.flows[i := f]))
  {
    var flows := b.flows[i := f];
    forall key | key in b.index ensures Holds(flows, b.index[key], key) {
      var j :| 0 <= j < |b.flows| && b.flows[j].id == b.index[key] && KeyOf(b.flows[j]) == key;
      assert flows[j].id == b.index[key] && KeyOf(flows[j]) == key;
    }
  }

  lemma IndexAdded(flows: seq<Flow>, index: map<string, nat>, f: Flow)
    requires IndexOk(flows, index)
    ensures IndexOk(flows + [f], index[KeyOf(f) := f.id])
  {
    var after, grown := flows + [f], index[KeyOf(f) := f.id];
    forall key | key in grown ensures Holds(after, grown[key], key) {
      if key == KeyOf(f) {
        assert after[|flows|] == f;
      } else {
        var j :| 0 <= j < |flows| && flows[j].id == index[key] && KeyOf(flows[j]) == key;
        assert after[j] == flows[j];
      }
    }
  }

  /** Dropping the oldest flow and its key leaves no entry for it. */
  lemma IndexDropped(flows: seq<Flow>, index: map<string, nat>)
    requires flows != [] && IndexOk(flows, index)
    ensures IndexOk(flows[1..], index - {KeyOf(flows[0])})
  {
    forall key | key in index - {KeyOf(flows[0])} ensures Holds(flows[1..], index[key], key) {
      var j :| 0 <= j < |flows| && flows[j].id == index[key] && KeyOf(flows[j]) == key;
      assert j != 0 && flows[1..][j - 1] == flows[j];
    }
  }

  lemma KeepAdd(b: Book, f: Flow)
    requires Inv(b) && f.id == b.counter + 1 && StepsOk(f)
    ensures Inv(AddFlow(b, f).book)
  {
    var flows := b.flows + [f];
    if |flows| > MAX_FLOWS {
      assert flows[0] == b.flows[0] && flows[1..] == b.flows[1..] + [f];
      IndexDropped(b.flows, b.index);
      IndexAdded(b.flows[1..], b.index - {KeyOf(b.flows[0])}, f);
    } else {
      IndexAdded(b.flows, b.index, f);
    }
  }

  lemma {:induction false} KeepCleanUp(b: Book, now: int, stamp: int, n: nat)
    requires Inv(b) && n <= |b.flows|
    ensures Inv(CleanUp(b, now, stamp, n).book)
  {
    if n > 0 {
      KeepCleanUp(b, now, stamp, n - 1);
      var before, f := CleanUp(b, now, stamp, n - 1).book, b.flows[n - 1];
      if Stale(f, now) {
        TimedOutSteps(f, now, stamp);
        KeepReplace(before, n - 1, TimedOut(f, now, stamp));
        assert CleanUp(b, now, stamp, n).book == before.(flows := before.flows[n - 1 := TimedOut(f, now, stamp)]);
      }
    }
  }

  lemma KeepRetry(b: Book, e: Entry, p: Protocol)
    requires Inv(b)
    ensures Inv(Step(b, Retry(e, p)).book)
  {
    var i := Target(b, e.clientIp, e.path);
    if i.None? {
      KeepAdd(b, Standalone(b.counter + 1, e, p));
    } else {
      RetriedSteps(b.flows[i.value], e);
      KeepReplace(b, i.value, Retried(b.flows[i.value], e));
    }
  }

  lemma KeepFacilitator(b: Book, e: Entry)
    requires Inv(b)
    ensures Inv(Step(b, Facilitator(e)).book)
  {
    var i := LastSettling(b.flows, e.ts, |b.flows|);
    if i.Some? {
      NotedSteps(b.flows[i.value], e.ts);
      KeepReplace(b, i.value, Noted(b.flows[i.value], e.ts));
    }
  }

  lemma KeepInv(b: Book, input: Input)
    requires Inv(b)
    ensures Inv(Step(b, input).book)
  {
    match input
    case Challenge(e, p) => KeepAdd(b, Challenged(b.counter + 1, e, p));
    case Retry(e, p) => KeepRetry(b, e, p);
    case Facilitator(e) => KeepFacilitator(b, e);
    case Cleanup(now, stamp) => KeepCleanUp(b, now, stamp, |b.flows|);
  }

  /** In every run: ids unique, at most 200 flows, steps matching status, no index entry for an evicted flow. */
  lemma {:induction false} EveryBook(inputs: seq<Input>)
    ensures Inv(Run(inputs))
  {
    if inputs != [] {
      EveryBook(inputs[..|inputs| - 1]);
      KeepInv(Run(inputs[..|inputs| - 1]), inputs[|inputs| - 1]);
    }
  }

  // ---- Finished flows and retries ----------------------------------------

  predicate Finished(f: Flow) {
    f.status == Delivered || f.status == Failed
  }

  lemma {:induction false} CleanUpSparesFinished(b: Book, now: int, stamp: int, n: nat, i: nat)
    requires n <= |b.flows| && i < |b.flows| && Finished(b.flows[i])
    ensures CleanUp(b, now, stamp, n).book.flows[i] == b.flows[i]
  {
    if n > 0 { CleanUpSparesFinished(b, now, stamp, n - 1, i); }
  }

  /** Delivered and failed are absorbing: no input changes a finished flow in any field; at most it is evicted. */
  lemma FinishedIsFinal(b: Book, input: Input, f: Flow)
    requires f in b.flows && Finished(f)
    ensures f in Step(b, input).book.flows || Step(b, input).evicted == [f]
  {
    var i :| 0 <= i < |b.flows| && b.flows[i] == f;
    var t := Step(b, input).book.flows;
    match input
    case Cleanup(now, stamp) => CleanUpSparesFinished(b, now, stamp, |b.flows|, i);
    case Facilitator(_) => assert t[i] == f;
    case Challenge(e, p) => AddSpares(b, Challenged(b.counter + 1, e, p), i);
    case Retry(e, p) =>
      if Target(b, e.clientIp, e.path).None? {
        AddSpares(b, Standalone(b.counter + 1, e, p), i);
      } else {
        assert t[i] == f;
      }
  }

  lemma AddSpares(b: Book, f: Flow, i: nat)
    requires i < |b.flows|
    ensures b.flows[i] in AddFlow(b, f).book.flows || AddFlow(b, f).evicted == [b.flows[i]]
  {
    var flows := b.flows + [f];
    assert flows[i] == b.flows[i];
    if |flows| > MAX_FLOWS && i > 0 {
      assert flows[1..][i - 1] == b.flows[i];
    }
  }

  predicate Rooted(path: string) {
    path != "" && path[0] == '/'
  }

  /** The longer address is the shorter one, the separator, and the front of the longer path. */
  predicate Overlaps(ip1: string, path1: string, ip2: string, path2: string) {
    && |ip1| + 2 <= |ip2| && ip2[..|ip1| + 2] == ip1 + "::"
    && path1 == ip2[|ip1| + 2..] + "::" + path2
  }

  lemma OverlapsShareKey(ip1: string, path1: string, ip2: string, path2: string)
    requires Overlaps(ip1, path1, ip2, path2)
    ensures FlowKey(ip1, path1) == FlowKey(ip2, path2)
  {
    var x := ip2[|ip1| + 2..];
    assert ip2 == ip1 + "::" + x;
    assert FlowKey(ip1, path1) == ip1 + "::" + x + "::" + path2;
  }

  lemma SharedKeyOverlaps(ip1: string, path1: string, ip2: string, path2: string)
    requires Rooted(path1) && Rooted(path2) && |ip1| <= |ip2| && FlowKey(ip1, path1) == FlowKey(ip2, path2)
    ensures (ip1 == ip2 && path1 == path2) || Overlaps(ip1, path1, ip2, path2)
  {
    var key, n1, n2 := FlowKey(ip1, path1), |ip1|, |ip2|;
    assert key[..n1] == ip1 && key[n1..n1 + 2] == "::" && key[n1 + 2..] == path1;
    assert key[..n2] == ip2 && key[n2..n2 + 2] == "::" && key[n2 + 2..] == path2;
    assert key[n1 + 2] == path1[0] == '/' && key[n2] == key[n2 + 1] == ':';
    assert n2 != n1 + 1 && n2 != n1 + 2;
    if n1 < n2 {
      assert ip2[..n1 + 2] == key[..n1 + 2] == ip1 + "::";
      var x := ip2[n1 + 2..];
      assert path1[..|x|] == key[n1 + 2..n2] == x;
      assert path1[|x|..|x| + 2] == key[n2..n2 + 2];
      assert path1[|x| + 2..] == key[n2 + 2..] == path2;
      assert path1 == path1[..|x|] + path1[|x|..|x| + 2] + path1[|x| + 2..];
    }
  }

  /** Exactly which address and path pairs share a key, paths starting with a slash as the server's do. */
  lemma KeysSharedExactly(ip1: string, path1: string, ip2: string, path2: string)
    requires Rooted(path1) && Rooted(path2)
    ensures FlowKey(ip1, path1) == FlowKey(ip2, path2) <==>
            || (ip1 == ip2 && path1 == path2)
            || Overlaps(ip1, path1, ip2, path2)
            || Overlaps(ip2, path2, ip1, path1)
  {
    if FlowKey(ip1, path1) == FlowKey(ip2, path2) {
      if |ip1| <= |ip2| {
        SharedKeyOverlaps(ip1, path1, ip2, path2);
      } else {
        SharedKeyOverlaps(ip2, path2, ip1, path1);
      }
    }
    if Overlaps(ip1, path1, ip2, path2) { OverlapsShareKey(ip1, path1, ip2, path2); }
    if Overlaps(ip2, path2, ip1, path1) { OverlapsShareKey(ip2, path2, ip1, path1); }
  }

  /** So addresses without a slash never share one. */
  lemma KeyIsInjective(ip1: string, path1: string, ip2: string, path2: string)
    requires '/' !in ip1 && '/' !in ip2 && Rooted(path1) && Rooted(path2)
    requires FlowKey(ip1, path1) == FlowKey(ip2, path2)
    ensures ip1 == ip2 && path1 == path2
  {
    KeysSharedExactly(ip1, path1, ip2, path2);
    if Overlaps(ip1, path1, ip2, path2) { OverlapHasSlash(ip1, path1, ip2, path2); }
    if Overlaps(ip2, path2, ip1, path1) { OverlapHasSlash(ip2, path2, ip1, path1); }
  }

  lemma OverlapHasSlash(ip1: string, path1: string, ip2: string, path2: string)
    requires Rooted(path1) && Overlaps(ip1, path1, ip2, path2)
    ensures '/' in ip2
  {
    var x := ip2[|ip1| + 2..];
    assert x != "" by { assert path1[0] == (x + "::" + path2)[0]; }
    assert ip2[|ip1| + 2] == x[0] == path1[0];
  }

  // ---- Which flow a retry settles ----------------------------------------

  /** Flow `i` is the one indexed under the key of this address and path, and waits for payment. */
  predicate WaitsUnderKey(b: Book, ip: string, path: string, i: nat)
    requires i < |b.flows|
  {
    FlowKey(ip, path) in b.index && b.flows[i].id == b.index[FlowKey(ip, path)] && b.flows[i].status == PaymentRequired
  }

  predicate NoneWaits(b: Book, path: string) {
    forall i :: 0 <= i < |b.flows| ==> !Waits(b.flows[i], path)
  }

  lemma TargetUnderKey(b: Book, ip: string, path: string, i: nat)
    requires Inv(b) && i < |b.flows| && WaitsUnderKey(b, ip, path, i)
    ensures Target(b, ip, path) == Some(i)
  {
    var hit := Position(b.flows, b.index[FlowKey(ip, path)], |b.flows|);
    assert hit == Some(i);
  }

  lemma TargetElsewhere(b: Book, ip: string, path: string)
    requires forall i :: 0 <= i < |b.flows| ==> !WaitsUnderKey(b, ip, path, i)
    ensures Target(b, ip, path) == LastWaiting(b.flows, path, |b.flows|)
  {
    var key := FlowKey(ip, path);
    if key in b.index {
      var hit := Position(b.flows, b.index[key], |b.flows|);
      if hit.Some? { assert !WaitsUnderKey(b, ip, path, hit.value); }
    }
  }

  /**
   In every run, a retry makes a flow of its own exactly when no held flow waits for
   payment on its path and none waits under its key.
   */
  lemma StandaloneExactly(inputs: seq<Input>, e: Entry, p: Protocol)
    ensures var b := Run(inputs);
            Step(b, Retry(e, p)).messages == [Created(Standalone(b.counter + 1, e, p))] <==>
              NoneWaits(b, e.path) && forall i :: 0 <= i < |b.flows| ==> !WaitsUnderKey(b, e.clientIp, e.path, i)
  {
    var b := Run(inputs);
    EveryBook(inputs);
    if i :| 0 <= i < |b.flows| && WaitsUnderKey(b, e.clientIp, e.path, i) {
      TargetUnderKey(b, e.clientIp, e.path, i);
    } else {
      TargetElsewhere(b, e.clientIp, e.path);
    }
  }

  /** A flow of another path waits under the retry's key. */
  predicate StolenKey(b: Book, e: Entry) {
    exists i :: 0 <= i < |b.flows| && WaitsUnderKey(b, e.clientIp, e.path, i) && b.flows[i].resource != e.path
  }

  /** A retry settles a flow of another path exactly when such a flow waits under its key. */
  lemma WrongFlowSettledExactly(inputs: seq<Input>, e: Entry)
    ensures var b := Run(inputs);
            var t := Target(b, e.clientIp, e.path);
            t.Some? && b.flows[t.value].resource != e.path <==> StolenKey(b, e)
  {
    var b := Run(inputs);
    EveryBook(inputs);
    if i :| 0 <= i < |b.flows| && WaitsUnderKey(b, e.clientIp, e.path, i) {
      TargetUnderKey(b, e.clientIp, e.path, i);
    } else {
      TargetElsewhere(b, e.clientIp, e.path);
    }
  }

  /**
   So that a retry makes its own flow exactly when none waits on its path fails if
   and only if none does and another path's flow waits under its key.
   */
  lemma PromiseBrokenExactly(inputs: seq<Input>, e: Entry, p: Protocol)
    ensures var b := Run(inputs);
            var standalone := Step(b, Retry(e, p)).messages == [Created(Standalone(b.counter + 1, e, p))];
            !(standalone <==> NoneWaits(b, e.path)) <==> StolenKey(b, e) && NoneWaits(b, e.path)
  {
    StandaloneExactly(inputs, e, p);
    var b := Run(inputs);
    if i :| 0 <= i < |b.flows| && WaitsUnderKey(b, e.clientIp, e.path, i) {
      assert b.flows[i].resource == e.path ==> Waits(b.flows[i], e.path);
    }
  }

  /** Every challenge and retry of a run came on a rooted path. */
  predicate RootedInputs(inputs: seq<Input>) {
    forall i :: 0 <= i < |inputs| && (inputs[i].Challenge? || inputs[i].Retry?) ==> Rooted(inputs[i].entry.path)
  }

  predicate RootedFlows(flows: seq<Flow>) {
    forall i :: 0 <= i < |flows| ==> Rooted(flows[i].resource)
  }

  lemma {:induction false} CleanUpKeepsPaths(b: Book, now: int, stamp: int, n: nat)
    requires n <= |b.flows| && RootedFlows(b.flows)
    ensures RootedFlows(CleanUp(b, now, stamp, n).book.flows)
  {
    if n > 0 { CleanUpKeepsPaths(b, now, stamp, n - 1); }
  }

  lemma {:induction false} RootedRun(inputs: seq<Input>)
    requires RootedInputs(inputs)
    ensures RootedFlows(Run(inputs).flows)
  {
    if inputs != [] {
      var front, input := inputs[..|inputs| - 1], inputs[|inputs| - 1];
      RootedRun(front);
      if input.Cleanup? { CleanUpKeepsPaths(Run(front), input.now, input.stamp, |Run(front).flows|); }
    }
  }

  /**
   On rooted paths a key is stolen only by an overlap: one address is the other, the
   separator and part of a path, which takes a slash in a client address.
   */
  lemma StolenOnlyByOverlap(inputs: seq<Input>, e: Entry, i: nat)
    requires RootedInputs(inputs) && Rooted(e.path) && i < |Run(inputs).flows|
    requires WaitsUnderKey(Run(inputs), e.clientIp, e.path, i) && Run(inputs).flows[i].resource != e.path
    ensures var f := Run(inputs).flows[i];
            && (Overlaps(f.clientIp, f.resource, e.clientIp, e.path) || Overlaps(e.clientIp, e.path, f.clientIp, f.resource))
            && ('/' in f.clientIp || '/' in e.clientIp)
  {
    EveryBook(inputs);
    RootedRun(inputs);
    var b, key := Run(inputs), FlowKey(e.clientIp, e.path);
    var j :| 0 <= j < |b.flows| && b.flows[j].id == b.index[key] && KeyOf(b.flows[j]) == key;
    assert i == j;
    var f := b.flows[i];
    KeysSharedExactly(f.clientIp, f.resource, e.clientIp, e.path);
    if Overlaps(f.clientIp, f.resource, e.clientIp, e.path) {
      OverlapHasSlash(f.clientIp, f.resource, e.clientIp, e.path);
    } else {
      OverlapHasSlash(e.clientIp, e.path, f.clientIp, f.resource);
    }
  }

  /** It happens: a retry on "/b::/c" from "a" settles the flow waiting on "/c" for "a::/b". */
  lemma RetrySettlesAnotherPath()
    ensures var challenge := Challenge(Entry(0, "/c", "a::/b", 402, 0), Mpp);
            var retry := Entry(1, "/b::/c", "a", 200, 0);
            var b := Run([challenge]);
            && RootedInputs([challenge]) && Rooted(retry.path)
            && b.flows == [Challenged(1, challenge.entry, Mpp)] && StolenKey(b, retry) && NoneWaits(b, retry.path)
            && Step(b, Retry(retry, Mpp)).messages == [Updated(Retried(b.flows[0], retry))]
            && Step(b, Retry(retry, Mpp)).book.flows[0].status == Delivered
  {
    var challenge := Challenge(Entry(0, "/c", "a::/b", 402, 0), Mpp);
    var retry := Entry(1, "/b::/c", "a", 200, 0);
    var f := Challenged(1, challenge.entry, Mpp);
    assert [challenge][..0] == [] && [] + [f] == [f];
    var b := Run([challenge]);
    assert b == AddFlow(Empty(), f).book && b.flows == [f];
    assert FlowKey("a::/b", "/c") == "a::/b::/c" == FlowKey("a", "/b::/c");
    assert WaitsUnderKey(b, "a", "/b::/c", 0);
    EveryBook([challenge]);
    TargetUnderKey(b, "a", "/b::/c", 0);
  }

  /** The index gives the last held flow of its key. */
  predicate IndexLast(flows: seq<Flow>, index: map<string, nat>) {
    forall i, j :: 0 <= i < j < |flows| && KeyOf(flows[i]) in index && index[KeyOf(flows[i])] == flows[i].id ==>
      KeyOf(flows[j]) != KeyOf(flows[i])
  }

  lemma LastAfterAdd(b: Book, f: Flow)
    requires Inv(b) && IndexLast(b.flows, b.index) && f.id == b.counter + 1
    ensures IndexLast(AddFlow(b, f).book.flows, AddFlow(b, f).book.index)
  {
  }

  lemma LastAfterReplace(b: Book, i: nat, f: Flow)
    requires IndexLast(b.flows, b.index) && i < |b.flows| && f.id == b.flows[i].id && KeyOf(f) == KeyOf(b.flows[i])
    ensures IndexLast(b.flows[i := f], b.index)
  {
  }

  lemma {:induction false} LastAfterCleanUp(b: Book, now: int, stamp: int, n: nat)
    requires IndexLast(b.flows, b.index) && n <= |b.flows|
    ensures IndexLast(CleanUp(b, now, stamp, n).book.flows, b.index)
  {
    if n > 0 {
      LastAfterCleanUp(b, now, stamp, n - 1);
      var before, f := CleanUp(b, now, stamp, n - 1).book, b.flows[n - 1];
      if Stale(f, now) { LastAfterReplace(before, n - 1, TimedOut(f, now, stamp)); }
    }
  }

  lemma LastAfterStep(b: Book, input: Input)
    requires Inv(b) && IndexLast(b.flows, b.index)
    ensures IndexLast(Step(b, input).book.flows, Step(b, input).book.index)
  {
    match input
    case Challenge(e, p) => LastAfterAdd(b, Challenged(b.counter + 1, e, p));
    case Retry(e, p) =>
      var i := Target(b, e.clientIp, e.path);
      if i.None? {
        LastAfterAdd(b, Standalone(b.counter + 1, e, p));
      } else {
        LastAfterReplace(b, i.value, Retried(b.flows[i.value], e));
      }
    case Facilitator(e) =>
      var i := LastSettling(b.flows, e.ts, |b.flows|);
      if i.Some? { LastAfterReplace(b, i.value, Noted(b.flows[i.value], e.ts)); }
    case Cleanup(now, stamp) => LastAfterCleanUp(b, now, stamp, |b.flows|);
  }

  /** In every run a key's index entry is the last held flow of that key. */
  lemma {:induction false} IndexGivesLast(inputs: seq<Input>)
    ensures IndexLast(Run(inputs).flows, Run(inputs).index)
  {
    if inputs != [] {
      var front := inputs[..|inputs| - 1];
      EveryBook(front);
      IndexGivesLast(front);
      LastAfterStep(Run(front), inputs[|inputs| - 1]);
    }
  }

  // ---- The engine as an object -------------------------------------------

  class FlowCorrelation {
    var flows: seq<Flow>
    var index: map<string, nat>
    var counter: nat

    constructor ()
      ensures View() == Empty()
    {
      flows, index, counter := [], map[], 0;
    }

    function View(): Book
      reads this
    {
      Book(flows, index, counter)
    }

    method Add(f: Flow) returns (sent: seq<Message>, ghost evicted: seq<Flow>)
      modifies this
      ensures Effect(View(), sent, evicted) == AddFlow(old(View()), f)
    {
      flows := flows + [f];
      counter := f.id;
      evicted := [];
      if |flows| > MAX_FLOWS {
        var removed := flows[0];
        flows := flows[1..];
        index := index - {KeyOf(removed)};
        evicted := [removed];
      }
      index := index[KeyOf(f) := f.id];
      sent := [Created(f)];
    }

    method CreateFlow(e: Entry, p: Protocol) returns (sent: seq<Message>)
      modifies this
      ensures View() == Step(old(View()), Challenge(e, p)).book && sent == Step(old(View()), Challenge(e, p)).messages
    {
      ghost var evicted;
      sent, evicted := Add(Challenged(counter + 1, e, p));
    }

    method FindTarget(ip: string, path: string) returns (r: Option<nat>)
      ensures r == Target(View(), ip, path)
    {
      var key := FlowKey(ip, path);
      if key in index {
        var hit := Position(flows, index[key], |flows|);
        if hit.Some? && flows[hit.value].status == PaymentRequired {
          return hit;
        }
      }
      var n: nat := |flows|;
      while n > 0
        invariant n <= |flows| && LastWaiting(flows, path, n) == LastWaiting(flows, path, |flows|)
      {
        n := n - 1;
        if Waits(flows[n], path) {
          return Some(n);
        }
      }
      return None;
    }

    method HandleRetry(e: Entry, p: Protocol) returns (sent: seq<Message>)
      modifies this
      ensures View() == Step(old(View()), Retry(e, p)).book && sent == Step(old(View()), Retry(e, p)).messages
    {
      var i := FindTarget(e.clientIp, e.path);
      if i.None? {
        ghost var evicted;
        sent, evicted := Add(Standalone(counter + 1, e, p));
        return;
      }
      var f := Retried(flows[i.value], e);
      flows := flows[i.value := f];
      sent := [Updated(f)];
    }

    method HandleFacilitator(e: Entry) returns (sent: seq<Message>)
      modifies this`flows
      ensures View() == Step(old(View()), Facilitator(e)).book && sent == Step(old(View()), Facilitator(e)).messages
    {
      var n: nat := |flows|;
      while n > 0
        invariant n <= |flows| && flows == old(flows)
        invariant LastSettling(flows, e.ts, n) == LastSettling(flows, e.ts, |flows|)
      {
        n := n - 1;
        if Settling(flows[n], e.ts) {
          var f := Noted(flows[n], e.ts);
          flows := flows[n := f];
          return [Updated(f)];
        }
      }
      sent := [];
    }

    method RunCleanup(now: int, stamp: int) returns (sent: seq<Message>)
      modifies this`flows
      ensures View() == Step(old(View()), Cleanup(now, stamp)).book && sent == Step(old(View()), Cleanup(now, stamp)).messages
    {
      sent := [];
      ghost var b := View();
      for n := 0 to |flows|
        invariant |flows| == |b.flows| && Effect(View(), sent, []) == CleanUp(b, now, stamp, n)
      {
        if Stale(flows[n], now) {
          var f := TimedOut(flows[n], now, stamp);
          flows := flows[n := f];
          sent := sent + [Updated(f)];
        }
      }
    }
  }
}
