/**
 The other fast form of a channel's voucher stream: a queue that a background
 signer fills and the lane empties (rust/bench/src/scheme/batch_settlement.rs).
 */
module VoucherQueue {
  import opened Common
  import opened BatchSettlement

  datatype Entry = Entry(epoch: nat, amount: nat)

  /** The signer thread holds the channel's lock from `Holding` to `Free`. */
  datatype Signer = Free | Holding(next: nat, epoch: nat) | Pushed(next: nat)

  datatype Lane = Ready | Popped(entry: Entry)

  /** `cumulative` and `epoch` are behind the lock; `mirror` is the lane's copy of `epoch`. */
  datatype Channel = Channel(
    cumulative: nat,
    epoch: nat,
    signer: Signer,
    queue: seq<Entry>,
    mirror: nat,
    lane: Lane,
    requests: seq<Request>,
    trace: seq<Event>)

  datatype Action = Lock | Push | Commit | Pop | Check | Resync(corrected: nat)

  function Fresh(from: nat): Channel {
    Channel(from, 0, Free, [], 0, Ready, [], [])
  }

  function Step(base: nat, capacity: nat, c: Channel, a: Action): Channel {
    match a
    case Lock =>
      if c.signer.Free? && |c.queue| < capacity && c.cumulative + base <= U64_MAX then
        c.(signer := Holding(c.cumulative + base, c.epoch))
      else c
    case Push =>
      if !c.signer.Holding? then c
      else if |c.queue| >= capacity then c.(signer := Free)
      else c.(queue := c.queue + [Entry(c.signer.epoch, c.signer.next)], signer := Pushed(c.signer.next))
    case Commit =>
      if c.signer.Pushed? then c.(cumulative := c.signer.next, signer := Free) else c
    case Pop =>
      if c.lane.Ready? && c.queue != [] then c.(lane := Popped(c.queue[0]), queue := c.queue[1..]) else c
    case Check =>
      if !c.lane.Popped? then c
      else if c.lane.entry.epoch == c.mirror then
        c.(lane := Ready, requests := c.requests + [Next], trace := c.trace + [Sent(c.lane.entry.amount)])
      else c.(lane := Ready)
    case Resync(corrected) =>
      if c.lane.Ready? && c.signer.Free? then
        c.(cumulative := corrected, epoch := c.epoch + 1, mirror := c.epoch + 1,
           requests := c.requests + [Correct(corrected)], trace := c.trace + [Corrected(corrected)])
      else c
  }

  function Run(base: nat, capacity: nat, c: Channel, run: seq<Action>): Channel {
    if run == [] then c
    else Step(base, capacity, Run(base, capacity, c, run[..|run| - 1]), run[|run| - 1])
  }

  /** The entry in the lane's hand, then the queue: all vouchers signed but not sent. */
  function Line(c: Channel): seq<Entry> {
    if c.lane.Popped? then [c.lane.entry] + c.queue else c.queue
  }

  /** Entries of the current epoch, climbing from `mark` without a gap. */
  predicate Climbs(epoch: nat, base: nat, mark: nat, line: seq<Entry>)
    decreases |line|
  {
    line == [] ||
    (line[0] == Entry(epoch, mark + base) && mark + base <= U64_MAX && Climbs(epoch, base, mark + base, line[1..]))
  }

  /** Stale entries, then fresh ones: once an entry is fresh, so is every later one. */
  predicate Ordered(epoch: nat, base: nat, mark: nat, line: seq<Entry>) {
    if line != [] && line[0].epoch < epoch then Ordered(epoch, base, mark, line[1..])
    else Climbs(epoch, base, mark, line)
  }

  /** The watermark the line of vouchers has climbed to. */
  function Top(epoch: nat, mark: nat, line: seq<Entry>): nat {
    if line == [] || line[|line| - 1].epoch < epoch then mark else line[|line| - 1].amount
  }

  /** The last amount signed under the lock. */
  function Produced(c: Channel): nat {
    if c.signer.Pushed? then c.signer.next else c.cumulative
  }

  ghost predicate Inv(base: nat, capacity: nat, from: nat, c: Channel) {
    var mark := OnDemandMark(base, from, c.requests);
    && c.mirror == c.epoch
    && |c.queue| <= capacity
    && c.trace == OnDemand(base, from, c.requests)
    && Ordered(c.epoch, base, mark, Line(c))
    && Produced(c) == Top(c.epoch, mark, Line(c))
    && (c.signer.Holding? ==>
          c.signer == Holding(c.cumulative + base, c.epoch) && c.cumulative + base <= U64_MAX && |c.queue| < capacity)
  }

  lemma {:induction false} ClimbsEpochs(epoch: nat, base: nat, mark: nat, line: seq<Entry>)
    requires Climbs(epoch, base, mark, line)
    ensures forall e :: e in line ==> e.epoch == epoch
    decreases |line|
  {
    if line != [] {
      ClimbsEpochs(epoch, base, mark + base, line[1..]);
    }
  }

  lemma {:induction false} OrderedEpochs(epoch: nat, base: nat, mark: nat, line: seq<Entry>)
    requires Ordered(epoch, base, mark, line)
    ensures forall e :: e in line ==> e.epoch <= epoch
  {
    if line != [] && line[0].epoch < epoch {
      OrderedEpochs(epoch, base, mark, line[1..]);
    } else {
      ClimbsEpochs(epoch, base, mark, line);
    }
  }

  lemma {:induction false} ClimbsPush(epoch: nat, base: nat, mark: nat, line: seq<Entry>)
    requires Climbs(epoch, base, mark, line) && Top(epoch, mark, line) + base <= U64_MAX
    ensures Climbs(epoch, base, mark, line + [Entry(epoch, Top(epoch, mark, line) + base)])
    decreases |line|
  {
    ClimbsEpochs(epoch, base, mark, line);
    var entry := Entry(epoch, Top(epoch, mark, line) + base);
    if line == [] {
      assert ([entry])[1..] == [];
    } else {
      ClimbsEpochs(epoch, base, mark + base, line[1..]);
      assert Top(epoch, mark, line) == Top(epoch, mark + base, line[1..]);
      ClimbsPush(epoch, base, mark + base, line[1..]);
      assert (line + [entry])[1..] == line[1..] + [entry];
    }
  }

  lemma {:induction false} OrderedPush(epoch: nat, base: nat, mark: nat, line: seq<Entry>)
    requires Ordered(epoch, base, mark, line) && Top(epoch, mark, line) + base <= U64_MAX
    ensures Ordered(epoch, base, mark, line + [Entry(epoch, Top(epoch, mark, line) + base)])
  {
    var entry := Entry(epoch, Top(epoch, mark, line) + base);
    if line != [] && line[0].epoch < epoch {
      assert Top(epoch, mark, line[1..]) == Top(epoch, mark, line);
      OrderedPush(epoch, base, mark, line[1..]);
      assert (line + [entry])[1..] == line[1..] + [entry];
    } else {
      ClimbsPush(epoch, base, mark, line);
    }
  }

  /** A correction makes everything signed so far stale. */
  lemma {:induction false} OrderedStale(epoch: nat, base: nat, mark: nat, line: seq<Entry>)
    requires forall e :: e in line ==> e.epoch < epoch
    ensures Ordered(epoch, base, mark, line) && Top(epoch, mark, line) == mark
  {
    if line != [] {
      assert line[0] in line && line[|line| - 1] in line;
      OrderedStale(epoch, base, mark, line[1..]);
    }
  }

  lemma KeepSigner(base: nat, capacity: nat, from: nat, c: Channel, a: Action)
    requires Inv(base, capacity, from, c) && (a.Lock? || a.Push? || a.Commit?)
    ensures Inv(base, capacity, from, Step(base, capacity, c, a))
  {
    if a.Push? && c.signer.Holding? {
      var mark := OnDemandMark(base, from, c.requests);
      var t := Step(base, capacity, c, a);
      OrderedPush(c.epoch, base, mark, Line(c));
      assert Line(t) == Line(c) + [Entry(c.epoch, c.signer.next)];
    }
  }

  lemma KeepPop(base: nat, capacity: nat, from: nat, c: Channel)
    requires Inv(base, capacity, from, c)
    ensures Inv(base, capacity, from, Step(base, capacity, c, Pop))
  {
    var t := Step(base, capacity, c, Pop);
    assert Line(t) == Line(c);
  }

  /** What the lane sends is the very voucher that would be signed on demand. */
  lemma CheckSendsNext(base: nat, capacity: nat, from: nat, c: Channel)
    requires Inv(base, capacity, from, c) && c.lane.Popped?
    ensures c.lane.entry.epoch <= c.epoch
    ensures c.lane.entry.epoch == c.epoch ==>
              OnDemandStep(base, OnDemandMark(base, from, c.requests), Next) ==
              (c.lane.entry.amount, Sent(c.lane.entry.amount))
  {
    var mark := OnDemandMark(base, from, c.requests);
    OrderedEpochs(c.epoch, base, mark, Line(c));
    assert Line(c)[0] == c.lane.entry;
  }

  lemma KeepDiscard(base: nat, capacity: nat, from: nat, c: Channel)
    requires Inv(base, capacity, from, c) && c.lane.Popped? && c.lane.entry.epoch < c.epoch
    ensures Inv(base, capacity, from, c.(lane := Ready))
  {
    var t := c.(lane := Ready);
    assert Line(c)[0] == c.lane.entry && Line(c)[1..] == c.queue;
    assert Line(t) == c.queue;
    assert c.queue != [] ==> Line(c)[|Line(c)| - 1] == c.queue[|c.queue| - 1];
  }

  lemma TopSent(epoch: nat, base: nat, mark: nat, line: seq<Entry>)
    requires line != [] && Climbs(epoch, base, mark, line)
    ensures Top(epoch, mark + base, line[1..]) == Top(epoch, mark, line)
    ensures Ordered(epoch, base, mark + base, line[1..])
  {
    ClimbsEpochs(epoch, base, mark, line);
    assert line[|line| - 1] in line;
    if |line| > 1 {
      assert line[1..][0] in line && line[1..][|line| - 2] == line[|line| - 1];
    }
  }

  lemma KeepSend(base: nat, capacity: nat, from: nat, c: Channel)
    requires Inv(base, capacity, from, c) && c.lane.Popped? && c.lane.entry.epoch == c.epoch
    ensures Inv(base, capacity, from, Step(base, capacity, c, Check))
  {
    var line := Line(c);
    CheckSendsNext(base, capacity, from, c);
    OnDemandPush(base, from, c.requests, Next);
    assert line == [c.lane.entry] + c.queue;
    assert line[1..] == c.queue;
    TopSent(c.epoch, base, OnDemandMark(base, from, c.requests), line);
  }

  lemma KeepCheck(base: nat, capacity: nat, from: nat, c: Channel)
    requires Inv(base, capacity, from, c) && c.lane.Popped?
    ensures Inv(base, capacity, from, Step(base, capacity, c, Check))
  {
    CheckSendsNext(base, capacity, from, c);
    if c.lane.entry.epoch == c.epoch {
      KeepSend(base, capacity, from, c);
    } else {
      KeepDiscard(base, capacity, from, c);
    }
  }

  lemma KeepResync(base: nat, capacity: nat, from: nat, c: Channel, corrected: nat)
    requires Inv(base, capacity, from, c)
    ensures Inv(base, capacity, from, Step(base, capacity, c, Resync(corrected)))
  {
    if c.lane.Ready? && c.signer.Free? {
      var t := Step(base, capacity, c, Resync(corrected));
      OrderedEpochs(c.epoch, base, OnDemandMark(base, from, c.requests), Line(c));
      OrderedStale(t.epoch, base, corrected, Line(t));
      OnDemandPush(base, from, c.requests, Correct(corrected));
    }
  }

  lemma {:induction false} EveryInterleaving(base: nat, capacity: nat, from: nat, run: seq<Action>)
    ensures Inv(base, capacity, from, Run(base, capacity, Fresh(from), run))
  {
    if run != [] {
      var front, a := run[..|run| - 1], run[|run| - 1];
      var c := Run(base, capacity, Fresh(from), front);
      EveryInterleaving(base, capacity, from, front);
      match a
      case Lock => KeepSigner(base, capacity, from, c, a);
      case Push => KeepSigner(base, capacity, from, c, a);
      case Commit => KeepSigner(base, capacity, from, c, a);
      case Pop => KeepPop(base, capacity, from, c);
      case Check => if c.lane.Popped? { KeepCheck(base, capacity, from, c); }
      case Resync(corrected) => KeepResync(base, capacity, from, c, corrected);
    } else {
      assert Line(Fresh(from)) == [];
    }
  }

  /**
   In every interleaving of signer, lane and corrections the lane has sent exactly
   what signing on demand would have, no stale voucher waits behind a fresh one,
   and the single producer never finds the queue full with a signed voucher in hand.
   */
  lemma QueueRefinesOnDemand(base: nat, capacity: nat, from: nat, run: seq<Action>)
    ensures var c := Run(base, capacity, Fresh(from), run);
            && c.trace == OnDemand(base, from, c.requests)
            && |c.queue| <= capacity && (c.signer.Holding? ==> |c.queue| < capacity)
            && (forall i, j :: 0 <= i < j < |c.queue| && c.queue[i].epoch == c.epoch ==> c.queue[j].epoch == c.epoch)
            && (forall i :: 0 <= i < |c.queue| ==> c.queue[i].epoch <= c.epoch)
  {
    EveryInterleaving(base, capacity, from, run);
    var c := Run(base, capacity, Fresh(from), run);
    QueueOrdered(base, OnDemandMark(base, from, c.requests), c);
  }

  lemma QueueOrdered(base: nat, mark: nat, c: Channel)
    requires Ordered(c.epoch, base, mark, Line(c))
    ensures forall i, j :: 0 <= i < j < |c.queue| && c.queue[i].epoch == c.epoch ==> c.queue[j].epoch == c.epoch
    ensures forall i :: 0 <= i < |c.queue| ==> c.queue[i].epoch <= c.epoch
  {
    OrderedEpochs(c.epoch, base, mark, Line(c));
    OrderedMeans(c.epoch, base, mark, Line(c));
    var line, d := Line(c), |Line(c)| - |c.queue|;
    forall i | 0 <= i < |c.queue| ensures c.queue[i] == line[d + i] {}
    forall i, j | 0 <= i < j < |c.queue| && c.queue[i].epoch == c.epoch ensures c.queue[j].epoch == c.epoch {
      assert line[d + i].epoch == c.epoch && c.queue[j] == line[d + j];
    }
    forall i | 0 <= i < |c.queue| ensures c.queue[i].epoch <= c.epoch {
      assert line[d + i] in line;
    }
  }

  lemma {:induction false} OrderedMeans(epoch: nat, base: nat, mark: nat, line: seq<Entry>)
    requires Ordered(epoch, base, mark, line)
    ensures forall i, j :: 0 <= i < j < |line| && line[i].epoch == epoch ==> line[j].epoch == epoch
  {
    if line != [] && line[0].epoch < epoch {
      OrderedMeans(epoch, base, mark, line[1..]);
      forall i, j | 0 <= i < j < |line| && line[i].epoch == epoch ensures line[j].epoch == epoch {
        assert line[1..][i - 1] == line[i] && line[1..][j - 1] == line[j];
      }
    } else {
      ClimbsEpochs(epoch, base, mark, line);
    }
  }
}
