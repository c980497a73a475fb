/**
 The browser's copy of the flow list (`reducer` in web-ui/src/hooks/useFlows.ts), fed
 by a snapshot and then by every message the correlation engine sends.
 */
module FlowReplica {
  import opened Common
  import opened Correlation

  function Reduce(flows: seq<Flow>, m: Message): seq<Flow> {
    match m
    case Created(f) => flows + [f]
    case Updated(f) => seq(|flows|, i requires 0 <= i < |flows| => if flows[i].id == f.id then f else flows[i])
  }

  function ReduceAll(flows: seq<Flow>, ms: seq<Message>): seq<Flow> {
    if ms == [] then flows else Reduce(ReduceAll(flows, ms[..|ms| - 1]), ms[|ms| - 1])
  }

  lemma ReducePush(flows: seq<Flow>, ms: seq<Message>, m: Message)
    ensures ReduceAll(flows, ms + [m]) == Reduce(ReduceAll(flows, ms), m)
  {
    assert (ms + [m])[..|ms|] == ms;
  }

  lemma ReduceOne(flows: seq<Flow>, m: Message)
    ensures ReduceAll(flows, [m]) == Reduce(flows, m)
  {
    assert [m][..0] == [];
  }

  /** The whole list, evicted flows first, has growing ids. */
  predicate Grown(gone: seq<Flow>, b: Book) {
    IdsOk(gone + b.flows, b.counter)
  }

  /** An update of a held flow reaches exactly that flow of the copy. */
  lemma UpdateReachesOne(gone: seq<Flow>, b: Book, i: nat, f: Flow)
    requires Grown(gone, b) && i < |b.flows| && f.id == b.flows[i].id
    ensures Reduce(gone + b.flows, Updated(f)) == gone + b.flows[i := f]
    ensures Grown(gone, b.(flows := b.flows[i := f]))
  {
    var all := gone + b.flows;
    assert all[|gone| + i] == b.flows[i];
    var r := Reduce(all, Updated(f));
    var want := gone + b.flows[i := f];
    forall k | 0 <= k < |all| ensures r[k] == want[k] && want[k].id == all[k].id {
      if k != |gone| + i {
        assert all[k].id != all[|gone| + i].id;
      }
    }
  }

  lemma {:induction false} CleanUpReaches(gone: seq<Flow>, b: Book, now: int, stamp: int, n: nat)
    requires Grown(gone, b) && n <= |b.flows|
    ensures var e := CleanUp(b, now, stamp, n);
            ReduceAll(gone + b.flows, e.messages) == gone + e.book.flows && Grown(gone, e.book)
  {
    if n > 0 {
      CleanUpReaches(gone, b, now, stamp, n - 1);
      if Stale(b.flows[n - 1], now) {
        var before, t := CleanUp(b, now, stamp, n - 1), TimedOut(b.flows[n - 1], now, stamp);
        UpdateReachesOne(gone, before.book, n - 1, t);
        ReducePush(gone + b.flows, before.messages, Updated(t));
      }
    }
  }

  lemma ReplaceReaches(gone: seq<Flow>, b: Book, i: nat, f: Flow)
    requires Grown(gone, b) && i < |b.flows| && f.id == b.flows[i].id
    ensures var e := Replace(b, i, f);
            ReduceAll(gone + b.flows, e.messages) == gone + e.evicted + e.book.flows && Grown(gone + e.evicted, e.book)
  {
    UpdateReachesOne(gone, b, i, f);
    ReduceOne(gone + b.flows, Updated(f));
    assert gone + [] == gone;
  }

  lemma AddReaches(gone: seq<Flow>, b: Book, f: Flow)
    requires Grown(gone, b) && f.id == b.counter + 1
    ensures var e := AddFlow(b, f);
            ReduceAll(gone + b.flows, e.messages) == gone + e.evicted + e.book.flows && Grown(gone + e.evicted, e.book)
  {
    var e := AddFlow(b, f);
    ReduceOne(gone + b.flows, Created(f));
    assert gone + e.evicted + e.book.flows == (gone + b.flows) + [f];
  }

  /** One input: the copy stays the evicted flows followed by the held ones. */
  lemma StepReaches(gone: seq<Flow>, b: Book, input: Input)
    requires Grown(gone, b)
    ensures var e := Step(b, input);
            ReduceAll(gone + b.flows, e.messages) == gone + e.evicted + e.book.flows && Grown(gone + e.evicted, e.book)
  {
    assert gone + [] == gone;
    match input
    case Challenge(e, p) => AddReaches(gone, b, Challenged(b.counter + 1, e, p));
    case Retry(e, p) =>
      var i := Target(b, e.clientIp, e.path);
      if i.None? {
        AddReaches(gone, b, Standalone(b.counter + 1, e, p));
      } else {
        ReplaceReaches(gone, b, i.value, Retried(b.flows[i.value], e));
      }
    case Facilitator(e) =>
      var i := LastSettling(b.flows, e.ts, |b.flows|);
      if i.Some? {
        ReplaceReaches(gone, b, i.value, Noted(b.flows[i.value], e.ts));
      }
    case Cleanup(now, stamp) => CleanUpReaches(gone, b, now, stamp, |b.flows|);
  }

  // ---- Whole sessions ----------------------------------------------------

  function Later(b: Book, inputs: seq<Input>): Book {
    if inputs == [] then b else Step(Later(b, inputs[..|inputs| - 1]), inputs[|inputs| - 1]).book
  }

  function Messages(b: Book, inputs: seq<Input>): seq<Message> {
    if inputs == [] then []
    else Messages(b, inputs[..|inputs| - 1]) + Step(Later(b, inputs[..|inputs| - 1]), inputs[|inputs| - 1]).messages
  }

  /** The flows evicted since `b`, each as it was when it was dropped. */
  function Evicted(b: Book, inputs: seq<Input>): seq<Flow> {
    if inputs == [] then []
    else Evicted(b, inputs[..|inputs| - 1]) + Step(Later(b, inputs[..|inputs| - 1]), inputs[|inputs| - 1]).evicted
  }

  lemma {:induction false} ReduceJoins(flows: seq<Flow>, a: seq<Message>, b: seq<Message>)
    ensures ReduceAll(flows, a + b) == ReduceAll(ReduceAll(flows, a), b)
  {
    if b == [] {
      assert a + b == a;
    } else {
      assert (a + b)[..|a + b| - 1] == a + b[..|b| - 1];
      ReduceJoins(flows, a, b[..|b| - 1]);
    }
  }

  lemma {:induction false} CopyFollows(b: Book, inputs: seq<Input>)
    requires IdsOk(b.flows, b.counter)
    ensures ReduceAll(b.flows, Messages(b, inputs)) == Evicted(b, inputs) + Later(b, inputs).flows
    ensures Grown(Evicted(b, inputs), Later(b, inputs))
  {
    if inputs == [] {
      assert [] + b.flows == b.flows;
    } else {
      var front, input := inputs[..|inputs| - 1], inputs[|inputs| - 1];
      CopyFollows(b, front);
      var now, gone := Later(b, front), Evicted(b, front);
      StepReaches(gone, now, input);
      ReduceJoins(b.flows, Messages(b, front), Step(now, input).messages);
    }
  }

  /**
   A client that takes a snapshot at any point of a run and then receives every
   message holds exactly the flows evicted since, in their last state, followed by
   the server's list.
   */
  lemma ReplicaIsExact(before: seq<Input>, after: seq<Input>)
    ensures var b := Run(before);
            ReduceAll(b.flows, Messages(b, after)) == Evicted(b, after) + Later(b, after).flows
  {
    EveryBook(before);
    CopyFollows(Run(before), after);
  }
}
