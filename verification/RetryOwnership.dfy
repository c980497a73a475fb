/**
 Whose flow a retry settles. The index keeps one flow per client and path, and loses
 it when an older flow of the same key is evicted; the fallback takes the last flow
 waiting on the path, whoever it belongs to (web-ui/api/correlation.ts).
 */
module RetryOwnership {
  import opened Common
  import opened Correlation

  // ---- The keys of all flows ever made -----------------------------------

  function KeyMade(ms: seq<Message>): seq<string> {
    if |ms| == 1 && ms[0].Created? then [KeyOf(ms[0].flow)] else []
  }

  /** The keys of the flows made so far, in order, evicted ones included. */
  function KeysMade(inputs: seq<Input>): seq<string> {
    if inputs == [] then []
    else
      var front := inputs[..|inputs| - 1];
      KeysMade(front) + KeyMade(Step(Run(front), inputs[|inputs| - 1]).messages)
  }

  /** The flows held are the last ones made, at most 200, and ids count them. */
  predicate Aligned(b: Book, keys: seq<string>) {
    && b.counter == |keys| && |b.flows| == Min(|keys|, MAX_FLOWS)
    && forall i :: 0 <= i < |b.flows| ==>
         && b.flows[i].id == |keys| - |b.flows| + i + 1
         && KeyOf(b.flows[i]) == keys[|keys| - |b.flows| + i]
  }

  predicate Newest(keys: seq<string>, key: string, n: nat) {
    n < |keys| && keys[n] == key && forall m :: n < m < |keys| ==> keys[m] != key
  }

  /** A flow of this key made earlier was evicted after flow `n` was made. */
  predicate EvictedSince(keys: seq<string>, key: string, n: nat) {
    exists m :: 0 <= m < |keys| && keys[m] == key && n < m + MAX_FLOWS < |keys|
  }

  predicate Keyed(keys: seq<string>, key: string, n: nat) {
    Newest(keys, key, n) && !EvictedSince(keys, key, n)
  }

  predicate Indexes(index: map<string, nat>, key: string, n: nat) {
    key in index && index[key] == n + 1
  }

  ghost predicate IndexIs(index: map<string, nat>, keys: seq<string>) {
    && (forall key :: key in index ==> index[key] > 0)
    && (forall key: string, n: nat :: Indexes(index, key, n) <==> Keyed(keys, key, n))
  }

  lemma NewestPush(keys: seq<string>, k: string, key: string, n: nat)
    ensures Newest(keys + [k], key, n) <==> if key == k then n == |keys| else Newest(keys, key, n)
  {
    var more := keys + [k];
    assert more[|keys|] == k;
    assert forall m :: 0 <= m < |keys| ==> more[m] == keys[m];
  }

  /** Making one more flow evicts the one made 200 flows before it. */
  lemma EvictedPush(keys: seq<string>, k: string, key: string, n: nat)
    requires n <= |keys|
    ensures EvictedSince(keys + [k], key, n) <==>
            || EvictedSince(keys, key, n)
            || (|keys| >= MAX_FLOWS && keys[|keys| - MAX_FLOWS] == key && n < |keys|)
  {
    var more := keys + [k];
    assert forall m :: 0 <= m < |keys| ==> more[m] == keys[m];
    if m :| 0 <= m < |more| && more[m] == key && n < m + MAX_FLOWS < |more| {
      assert keys[m] == key;
    }
    if m :| 0 <= m < |keys| && keys[m] == key && n < m + MAX_FLOWS < |keys| {
      assert more[m] == key;
    }
    if |keys| >= MAX_FLOWS && keys[|keys| - MAX_FLOWS] == key && n < |keys| {
      assert more[|keys| - MAX_FLOWS] == key;
    }
  }

  lemma KeyedPush(keys: seq<string>, k: string, key: string, n: nat)
    ensures Keyed(keys + [k], key, n) <==>
            if key == k then n == |keys|
            else Keyed(keys, key, n) && !(|keys| >= MAX_FLOWS && keys[|keys| - MAX_FLOWS] == key)
  {
    NewestPush(keys, k, key, n);
    if n <= |keys| { EvictedPush(keys, k, key, n); }
  }

  lemma AddAligned(b: Book, keys: seq<string>, f: Flow)
    requires Aligned(b, keys) && f.id == b.counter + 1
    ensures Aligned(AddFlow(b, f).book, keys + [KeyOf(f)])
  {
  }

  lemma AddIndexes(b: Book, keys: seq<string>, f: Flow)
    requires Aligned(b, keys) && IndexIs(b.index, keys) && f.id == b.counter + 1
    ensures IndexIs(AddFlow(b, f).book.index, keys + [KeyOf(f)])
  {
    var index := AddFlow(b, f).book.index;
    var full := |keys| >= MAX_FLOWS;
    assert full ==> (b.flows + [f])[0] == b.flows[0] && KeyOf(b.flows[0]) == keys[|keys| - MAX_FLOWS];
    forall key: string, n: nat ensures Indexes(index, key, n) <==> Keyed(keys + [KeyOf(f)], key, n) {
      KeyedPush(keys, KeyOf(f), key, n);
      assert Indexes(b.index, key, n) <==> Keyed(keys, key, n);
    }
  }

  lemma ReplaceAligned(b: Book, keys: seq<string>, i: nat, f: Flow)
    requires Aligned(b, keys) && i < |b.flows| && f.id == b.flows[i].id && KeyOf(f) == KeyOf(b.flows[i])
    ensures Aligned(b.(flows := b.flows[i := f]), keys)
  {
  }

  lemma {:induction false} CleanUpAligned(b: Book, keys: seq<string>, now: int, stamp: int, n: nat)
    requires Aligned(b, keys) && n <= |b.flows|
    ensures Aligned(CleanUp(b, now, stamp, n).book, keys)
    ensures forall i :: 0 <= i < |CleanUp(b, now, stamp, n).messages| ==> CleanUp(b, now, stamp, n).messages[i].Updated?
  {
    if n > 0 {
      CleanUpAligned(b, keys, now, stamp, n - 1);
      var before, f := CleanUp(b, now, stamp, n - 1).book, b.flows[n - 1];
      if Stale(f, now) { ReplaceAligned(before, keys, n - 1, TimedOut(f, now, stamp)); }
    }
  }

  lemma StepTracked(b: Book, keys: seq<string>, input: Input)
    requires Aligned(b, keys) && IndexIs(b.index, keys)
    ensures var e := Step(b, input);
            Aligned(e.book, keys + KeyMade(e.messages)) && IndexIs(e.book.index, keys + KeyMade(e.messages))
  {
    assert keys + [] == keys;
    match input
    case Challenge(e, p) =>
      AddAligned(b, keys, Challenged(b.counter + 1, e, p));
      AddIndexes(b, keys, Challenged(b.counter + 1, e, p));
    case Retry(e, p) =>
      var i := Target(b, e.clientIp, e.path);
      if i.None? {
        AddAligned(b, keys, Standalone(b.counter + 1, e, p));
        AddIndexes(b, keys, Standalone(b.counter + 1, e, p));
      } else {
        ReplaceAligned(b, keys, i.value, Retried(b.flows[i.value], e));
      }
    case Facilitator(e) =>
      var i := LastSettling(b.flows, e.ts, |b.flows|);
      if i.Some? { ReplaceAligned(b, keys, i.value, Noted(b.flows[i.value], e.ts)); }
    case Cleanup(now, stamp) => CleanUpAligned(b, keys, now, stamp, |b.flows|);
  }

  /**
   In every run, the index holds for a key exactly its newest flow, unless an older
   flow of that key was evicted since that one was made; then it holds none.
   */
  lemma {:induction false} IndexedExactly(inputs: seq<Input>)
    ensures Aligned(Run(inputs), KeysMade(inputs)) && IndexIs(Run(inputs).index, KeysMade(inputs))
  {
    if inputs != [] {
      var front := inputs[..|inputs| - 1];
      IndexedExactly(front);
      StepTracked(Run(front), KeysMade(front), inputs[|inputs| - 1]);
    }
  }

  // ---- Another client's flow ---------------------------------------------

  predicate OwnWaits(b: Book, e: Entry, i: nat)
    requires i < |b.flows|
  {
    Waits(b.flows[i], e.path) && b.flows[i].clientIp == e.clientIp
  }

  predicate LastWaits(b: Book, path: string, i: nat)
    requires i < |b.flows|
  {
    Waits(b.flows[i], path) && forall j :: i < j < |b.flows| ==> !Waits(b.flows[j], path)
  }

  /** No flow indexed under the retry's key waits for payment. */
  predicate KeyIdle(b: Book, e: Entry) {
    forall j :: 0 <= j < |b.flows| ==> !WaitsUnderKey(b, e.clientIp, e.path, j)
  }

  /** The retry settles a flow of another client. */
  predicate SettlesOther(b: Book, e: Entry) {
    var t := Target(b, e.clientIp, e.path);
    t.Some? && b.flows[t.value].clientIp != e.clientIp
  }

  /** Another client's flow that waits under the retry's key, or, with none there, waits last on its path. */
  predicate InTheWay(b: Book, e: Entry, i: nat)
    requires i < |b.flows|
  {
    && b.flows[i].clientIp != e.clientIp
    && (WaitsUnderKey(b, e.clientIp, e.path, i) || (KeyIdle(b, e) && LastWaits(b, e.path, i)))
  }

  /** In every run, a retry settles another client's flow exactly when one is in the way. */
  lemma OtherSettledExactly(inputs: seq<Input>, e: Entry)
    ensures var b := Run(inputs);
            SettlesOther(b, e) <==> exists i :: 0 <= i < |b.flows| && InTheWay(b, e, i)
  {
    var b := Run(inputs);
    EveryBook(inputs);
    if j :| 0 <= j < |b.flows| && WaitsUnderKey(b, e.clientIp, e.path, j) {
      TargetUnderKey(b, e.clientIp, e.path, j);
      assert SettlesOther(b, e) ==> InTheWay(b, e, j);
      forall i | 0 <= i < |b.flows| && InTheWay(b, e, i) ensures i == j {
        TargetUnderKey(b, e.clientIp, e.path, i);
      }
    } else {
      TargetElsewhere(b, e.clientIp, e.path);
      var t := LastWaiting(b.flows, e.path, |b.flows|);
      assert t.Some? ==> LastWaits(b, e.path, t.value);
      if t.Some? && b.flows[t.value].clientIp != e.clientIp { assert InTheWay(b, e, t.value); }
      forall i | 0 <= i < |b.flows| && InTheWay(b, e, i) ensures t == Some(i) {
        assert LastWaits(b, e.path, i);
      }
    }
  }

  /** The newest flow of the key of a held flow is held, and made no earlier. */
  lemma NewestIsHeld(b: Book, keys: seq<string>, i: nat, n: nat)
    requires Aligned(b, keys) && i < |b.flows| && Newest(keys, KeyOf(b.flows[i]), n)
    ensures |keys| - |b.flows| + i <= n < |keys|
  {
    assert keys[|keys| - |b.flows| + i] == KeyOf(b.flows[i]);
  }

  lemma IdleWhenKeyed(b: Book, keys: seq<string>, e: Entry, n: nat)
    requires Aligned(b, keys) && |keys| - |b.flows| <= n < |keys| && Indexes(b.index, FlowKey(e.clientIp, e.path), n)
    ensures KeyIdle(b, e) <==> b.flows[n - (|keys| - |b.flows|)].status != PaymentRequired
  {
    var gone := |keys| - |b.flows|;
    assert b.flows[n - gone].id == n + 1;
    forall j | 0 <= j < |b.flows| && WaitsUnderKey(b, e.clientIp, e.path, j) ensures j == n - gone {
      assert b.flows[j].id == gone + j + 1;
    }
    assert b.flows[n - gone].status == PaymentRequired ==> WaitsUnderKey(b, e.clientIp, e.path, n - gone);
  }

  /**
   While a flow of the retry's own client waits on its path, none waits under its key
   exactly when the newest flow of that key is finished, or an older one was evicted
   since the newest was made.
   */
  lemma KeyIdleExactly(inputs: seq<Input>, e: Entry, i: nat, n: nat)
    requires i < |Run(inputs).flows| && OwnWaits(Run(inputs), e, i)
    requires Newest(KeysMade(inputs), FlowKey(e.clientIp, e.path), n)
    ensures var b, keys := Run(inputs), KeysMade(inputs);
            var key, gone := FlowKey(e.clientIp, e.path), |keys| - |b.flows|;
            && gone + i <= n < |keys|
            && (KeyIdle(b, e) <==> b.flows[n - gone].status != PaymentRequired || EvictedSince(keys, key, n))
  {
    IndexedExactly(inputs);
    var b, keys, key := Run(inputs), KeysMade(inputs), FlowKey(e.clientIp, e.path);
    NewestIsHeld(b, keys, i, n);
    assert Indexes(b.index, key, n) <==> Keyed(keys, key, n);
    if Keyed(keys, key, n) {
      IdleWhenKeyed(b, keys, e, n);
    } else {
      IndexedIsNewest(b, keys, key, n);
    }
  }

  /** Another client's flow waits under the retry's key. */
  predicate OtherUnderKey(b: Book, e: Entry) {
    exists j :: 0 <= j < |b.flows| && WaitsUnderKey(b, e.clientIp, e.path, j) && b.flows[j].clientIp != e.clientIp
  }

  /** Another client's flow waits last on the retry's path. */
  predicate OtherWaitsLast(b: Book, e: Entry) {
    exists j :: 0 <= j < |b.flows| && LastWaits(b, e.path, j) && b.flows[j].clientIp != e.clientIp
  }

  lemma InTheWaySplits(b: Book, e: Entry)
    ensures (exists i :: 0 <= i < |b.flows| && InTheWay(b, e, i)) <==>
            OtherUnderKey(b, e) || (KeyIdle(b, e) && OtherWaitsLast(b, e))
  {
    if j :| 0 <= j < |b.flows| && WaitsUnderKey(b, e.clientIp, e.path, j) && b.flows[j].clientIp != e.clientIp {
      assert InTheWay(b, e, j);
    }
    if j :| 0 <= j < |b.flows| && LastWaits(b, e.path, j) && b.flows[j].clientIp != e.clientIp {
      assert KeyIdle(b, e) ==> InTheWay(b, e, j);
    }
  }

  /**
   So, while a flow of its own client waits on its path, a retry settles another
   client's flow exactly when one waits under its key, or the newest flow of its key is
   finished or lost its entry to an eviction and another client's waits last.
   */
  lemma PassedOverExactly(inputs: seq<Input>, e: Entry, i: nat, n: nat)
    requires i < |Run(inputs).flows| && OwnWaits(Run(inputs), e, i)
    requires Newest(KeysMade(inputs), FlowKey(e.clientIp, e.path), n)
    ensures var b, keys := Run(inputs), KeysMade(inputs);
            var gone := |keys| - |b.flows|;
            && gone <= n < |keys|
            && (SettlesOther(b, e) <==>
                  || OtherUnderKey(b, e)
                  || ((b.flows[n - gone].status != PaymentRequired || EvictedSince(keys, FlowKey(e.clientIp, e.path), n))
                      && OtherWaitsLast(b, e)))
  {
    OtherSettledExactly(inputs, e);
    KeyIdleExactly(inputs, e, i, n);
    InTheWaySplits(Run(inputs), e);
  }

  /** Only the newest flow of a key is ever indexed. */
  lemma IndexedIsNewest(b: Book, keys: seq<string>, key: string, n: nat)
    requires IndexIs(b.index, keys) && Newest(keys, key, n)
    ensures key in b.index ==> Keyed(keys, key, n)
  {
    if key in b.index {
      var m: nat := b.index[key] - 1;
      assert Indexes(b.index, key, m);
      assert Newest(keys, key, m);
      assert m == n;
    }
  }

  // ---- It happens --------------------------------------------------------

  predicate OnlyChallenges(inputs: seq<Input>) {
    forall i :: 0 <= i < |inputs| ==> inputs[i].Challenge?
  }

  /** After challenges alone every flow held waits as its challenge made it. */
  predicate HoldsChallenges(b: Book, inputs: seq<Input>)
    requires OnlyChallenges(inputs)
  {
    && |b.flows| == Min(|inputs|, MAX_FLOWS) && b.counter == |inputs|
    && forall i :: 0 <= i < |b.flows| ==>
         var k := |inputs| - |b.flows| + i;
         b.flows[i] == Challenged(k + 1, inputs[k].entry, inputs[k].protocol)
  }

  function EntryKey(e: Entry): string {
    FlowKey(e.clientIp, e.path)
  }

  lemma OneMoreHeld(b: Book, front: seq<Input>, last: Input)
    requires OnlyChallenges(front) && last.Challenge? && HoldsChallenges(b, front)
    ensures OnlyChallenges(front + [last])
    ensures HoldsChallenges(AddFlow(b, Challenged(b.counter + 1, last.entry, last.protocol)).book, front + [last])
  {
    var inputs, f := front + [last], Challenged(b.counter + 1, last.entry, last.protocol);
    var flows := AddFlow(b, f).book.flows;
    forall i | 0 <= i < |flows|
      ensures var k := |inputs| - |flows| + i; flows[i] == Challenged(k + 1, inputs[k].entry, inputs[k].protocol)
    {
      var k := |inputs| - |flows| + i;
      if i < |flows| - 1 {
        assert inputs[k] == front[k];
        var j := k - (|front| - |b.flows|);
        assert flows[i] == b.flows[j];
      }
    }
  }

  lemma {:induction false} ChallengesHeld(inputs: seq<Input>)
    requires OnlyChallenges(inputs)
    ensures HoldsChallenges(Run(inputs), inputs)
  {
    if inputs != [] {
      var front, last := inputs[..|inputs| - 1], inputs[|inputs| - 1];
      ChallengesHeld(front);
      OneMoreHeld(Run(front), front, last);
      assert inputs == front + [last];
    }
  }

  lemma {:induction false} ChallengesKeyed(inputs: seq<Input>)
    requires OnlyChallenges(inputs)
    ensures |KeysMade(inputs)| == |inputs|
    ensures forall i :: 0 <= i < |inputs| ==> KeysMade(inputs)[i] == EntryKey(inputs[i].entry)
  {
    if inputs != [] {
      var front, last := inputs[..|inputs| - 1], inputs[|inputs| - 1];
      ChallengesKeyed(front);
      var f := Challenged(Run(front).counter + 1, last.entry, last.protocol);
      assert Step(Run(front), last).messages == [Created(f)];
      assert KeyMade([Created(f)]) == [EntryKey(last.entry)];
    }
  }

  const FROM_A: Entry := Entry(0, "/p", "a", 402, 0)
  const FROM_B: Entry := Entry(0, "/p", "b", 402, 0)
  const PAID_BY_A: Entry := Entry(1, "/p", "a", 200, 0)

  function Repeat(input: Input, n: nat): (r: seq<Input>)
    ensures |r| == n && forall i :: 0 <= i < n ==> r[i] == input
  {
    if n == 0 then [] else Repeat(input, n - 1) + [input]
  }

  /**
   By eviction: two challenges from "a", then 199 from "b" on the same path. The first
   flow of "a" is evicted and takes the key of the second with it, so the payment of
   "a" settles the last flow of "b" while its own waits.
   */
  lemma EvictionMisleads()
    ensures var inputs := [Challenge(FROM_A, Mpp), Challenge(FROM_A, Mpp)] + Repeat(Challenge(FROM_B, Mpp), 199);
            var b := Run(inputs);
            && |b.flows| == 200 && OwnWaits(b, PAID_BY_A, 0) && Target(b, "a", "/p") == Some(199)
            && SettlesOther(b, PAID_BY_A)
  {
    var inputs := [Challenge(FROM_A, Mpp), Challenge(FROM_A, Mpp)] + Repeat(Challenge(FROM_B, Mpp), 199);
    assert forall i :: 2 <= i < 201 ==> inputs[i] == Challenge(FROM_B, Mpp);
    ChallengesHeld(inputs);
    ChallengesKeyed(inputs);
    var b, keys, key := Run(inputs), KeysMade(inputs), EntryKey(FROM_A);
    assert b.flows[0] == Challenged(2, FROM_A, Mpp) && b.flows[199] == Challenged(201, FROM_B, Mpp);
    KeysDiffer();
    assert keys[0] == key && keys[1] == key;
    assert Newest(keys, key, 1);
    assert EvictedSince(keys, key, 1);
    KeyIdleExactly(inputs, PAID_BY_A, 0, 1);
    TargetElsewhere(b, "a", "/p");
  }

  lemma KeysDiffer()
    ensures EntryKey(FROM_A) != EntryKey(FROM_B)
  {
    assert EntryKey(FROM_A)[0] == 'a' && EntryKey(FROM_B)[0] == 'b';
  }

  lemma TwoWaiting()
    ensures var three := [Challenge(FROM_A, Mpp), Challenge(FROM_B, Mpp), Challenge(FROM_A, Mpp)];
            var b := Run(three);
            && b.flows == [Challenged(1, FROM_A, Mpp), Challenged(2, FROM_B, Mpp), Challenged(3, FROM_A, Mpp)]
            && Target(b, "a", "/p") == Some(2)
  {
    var three := [Challenge(FROM_A, Mpp), Challenge(FROM_B, Mpp), Challenge(FROM_A, Mpp)];
    ChallengesHeld(three);
    ChallengesKeyed(three);
    IndexedExactly(three);
    EveryBook(three);
    var b, keys, key := Run(three), KeysMade(three), EntryKey(FROM_A);
    assert Newest(keys, key, 2) && !EvictedSince(keys, key, 2);
    assert Keyed(keys, key, 2) && Indexes(b.index, key, 2);
    assert WaitsUnderKey(b, "a", "/p", 2);
    TargetUnderKey(b, "a", "/p", 2);
  }

  /**
   Without any eviction: challenges from "a", "b" and "a" again, and a payment by "a",
   which settles its second flow. Its next payment settles the flow of "b", though its
   own first flow still waits.
   */
  lemma SecondPaymentMisleads()
    ensures var inputs := [Challenge(FROM_A, Mpp), Challenge(FROM_B, Mpp), Challenge(FROM_A, Mpp), Retry(PAID_BY_A, Mpp)];
            var b := Run(inputs);
            && |b.flows| == 3 && OwnWaits(b, PAID_BY_A, 0) && Target(b, "a", "/p") == Some(1)
            && SettlesOther(b, PAID_BY_A)
  {
    var three := [Challenge(FROM_A, Mpp), Challenge(FROM_B, Mpp), Challenge(FROM_A, Mpp)];
    var inputs := three + [Retry(PAID_BY_A, Mpp)];
    assert inputs[..3] == three;
    TwoWaiting();
    var b := Run(inputs);
    assert b.flows == Run(three).flows[2 := Retried(Challenged(3, FROM_A, Mpp), PAID_BY_A)];
    assert b.index == Run(three).index;
    IndexedExactly(three);
    var keys, key := KeysMade(three), EntryKey(FROM_A);
    ChallengesHeld(three);
    ChallengesKeyed(three);
    assert Newest(keys, key, 2) && !EvictedSince(keys, key, 2);
    assert Keyed(keys, key, 2) && Indexes(b.index, key, 2);
    TargetElsewhere(b, "a", "/p");
    assert inputs == [Challenge(FROM_A, Mpp), Challenge(FROM_B, Mpp), Challenge(FROM_A, Mpp), Retry(PAID_BY_A, Mpp)];
  }
}
